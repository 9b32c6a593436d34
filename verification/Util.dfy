/** util::split of src/util.hpp with a one-character separator. */
module Util {

  /** The pieces between separators, empty ones included. */
  function Segments(s: string, c: char): (r: seq<string>)
    ensures r != []
  {
    if s == "" then [""]
    else
      var rest := Segments(s[1..], c);
      if s[0] == c then [""] + rest else [[s[0]] + rest[0]] + rest[1..]
  }

  function Join(parts: seq<string>, c: char): string {
    if parts == [] then ""
    else if |parts| == 1 then parts[0]
    else parts[0] + [c] + Join(parts[1..], c)
  }

  function NonEmpty(parts: seq<string>): seq<string> {
    if parts == [] then []
    else (if parts[0] == "" then [] else [parts[0]]) + NonEmpty(parts[1..])
  }

  /** What split promises: the segments without the empty ones, except that
      the last is kept whatever it is. */
  function Kept(segments: seq<string>): seq<string>
    requires segments != []
  {
    NonEmpty(segments[..|segments|-1]) + [segments[|segments|-1]]
  }

  /** Segments is what the name says: no piece holds the separator, and joining
      the pieces gives the string back. */
  lemma {:induction false} SegmentsInvert(s: string, c: char)
    ensures Join(Segments(s, c), c) == s
    ensures forall p :: p in Segments(s, c) ==> c !in p
  {
    if s != "" {
      SegmentsInvert(s[1..], c);
      var rest := Segments(s[1..], c);
      if s[0] == c {
        assert ([""] + rest)[1..] == rest;
      } else {
        var r := [[s[0]] + rest[0]] + rest[1..];
        assert r[1..] == rest[1..];
      }
    }
  }

  /** And joining undoes it the other way, so the pieces are determined. */
  lemma {:induction false} SegmentsOfJoin(parts: seq<string>, c: char)
    requires parts != [] && forall p :: p in parts ==> c !in p
    ensures Segments(Join(parts, c), c) == parts
    decreases |parts|, |parts[0]|
  {
    var s := Join(parts, c);
    assert parts[0] in parts;
    if |parts| == 1 {
      OneSegment(parts[0], c);
    } else {
      var tail := Join(parts[1..], c);
      SegmentsOfJoin(parts[1..], c);
      SegmentsAfter(parts[0], c, tail);
      assert s == parts[0] + [c] + tail;
      assert parts == [parts[0]] + parts[1..];
    }
  }

  lemma {:induction false} OneSegment(p: string, c: char)
    requires c !in p
    ensures Segments(p, c) == [p]
  {
    if p != "" {
      OneSegment(p[1..], c);
      assert [p[0]] + p[1..] == p;
    }
  }

  lemma {:induction false} SegmentsAfter(p: string, c: char, tail: string)
    requires c !in p
    ensures Segments(p + [c] + tail, c) == [p] + Segments(tail, c)
  {
    var s := p + [c] + tail;
    if p == "" {
      assert s[1..] == tail;
    } else {
      assert s[1..] == p[1..] + [c] + tail;
      SegmentsAfter(p[1..], c, tail);
      assert [p[0]] + p[1..] == p;
    }
  }

  /** string_view::find. */
  method Find(s: string, c: char, from: nat) returns (at: nat)
    requires from <= |s|
    ensures from <= at <= |s| && c !in s[from..at]
    ensures at < |s| ==> s[at] == c
  {
    at := from;
    while at < |s| && s[at] != c
      invariant from <= at <= |s| && c !in s[from..at]
    {
      assert s[from..at+1] == s[from..at] + [s[at]];
      at := at + 1;
    }
  }

  /** Terminates and keeps exactly what is promised, for every string. */
  method Split(s: string, c: char) returns (result: seq<string>)
    ensures result == if s == "" then [] else Kept(Segments(s, c))
  {
    result := [];
    if s == "" {
      return;
    }
    hide Segments, NonEmpty, Kept;
    var pos := 0;
    ghost var done: seq<string> := [];
    NonEmptyAll(done);
    assert s[0..] == s;
    while true
      invariant pos <= |s|
      invariant Segments(s, c) == done + Segments(s[pos..], c)
      invariant result == NonEmpty(done)
      decreases |s| - pos
    {
      var newPos := Find(s, c, pos);
      if newPos == |s| {
        LastSegment(s, c, pos, done);
        result := result + [s[pos..]];
        break;
      }
      NextSegment(s, c, pos, newPos, done);
      NonEmptySnoc(done, s[pos..newPos]);
      if pos != newPos {
        result := result + [s[pos..newPos]];
      }
      done := done + [s[pos..newPos]];
      pos := newPos + 1;
    }
  }

  lemma LastSegment(s: string, c: char, pos: nat, done: seq<string>)
    requires pos <= |s| && c !in s[pos..|s|]
    ensures Kept(done + Segments(s[pos..], c)) == NonEmpty(done) + [s[pos..]]
  {
    assert s[pos..|s|] == s[pos..];
    OneSegment(s[pos..], c);
    assert (done + [s[pos..]])[..|done|] == done;
  }

  lemma NextSegment(s: string, c: char, pos: nat, at: nat, done: seq<string>)
    requires pos <= at < |s| && s[at] == c && c !in s[pos..at]
    ensures done + Segments(s[pos..], c) == (done + [s[pos..at]]) + Segments(s[at+1..], c)
  {
    hide Segments;
    assert s[pos..] == s[pos..at] + [c] + s[at+1..];
    SegmentsAfter(s[pos..at], c, s[at+1..]);
  }

  lemma {:induction false} NonEmptySnoc(parts: seq<string>, last: string)
    ensures NonEmpty(parts + [last]) == NonEmpty(parts) + if last == "" then [] else [last]
  {
    if parts == [] {
      assert parts + [last] == [last] && [last][1..] == [];
    } else {
      NonEmptySnoc(parts[1..], last);
      assert (parts + [last])[1..] == parts[1..] + [last];
    }
  }

  lemma {:induction false} NonEmptyAll(parts: seq<string>)
    requires forall p :: p in parts ==> p != ""
    ensures NonEmpty(parts) == parts
  {
    if parts != [] {
      assert parts[0] in parts && forall p :: p in parts[1..] ==> p in parts;
      NonEmptyAll(parts[1..]);
    }
  }

  /** split undoes join, for any non-empty list of non-empty pieces that do not
      hold the separator. */
  lemma SplitUndoesJoin(parts: seq<string>, c: char)
    requires parts != [] && forall p :: p in parts ==> p != "" && c !in p
    ensures Join(parts, c) != "" && Kept(Segments(Join(parts, c), c)) == parts
  {
    SegmentsOfJoin(parts, c);
    assert parts[0] in parts;
    NonEmptyAll(parts[..|parts|-1]);
  }
}
