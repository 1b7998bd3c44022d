/**
 * `Array.prototype.join(sep)` and `String.prototype.split(sep)` for a
 * one-character separator. Join puts no quoting around a part, so for a
 * non-empty list of parts split gives the parts back exactly when no part
 * contains the separator (no parts join to "", which splits into [""]).
 */
module Text {

  /** `parts.join(sep)`: "" for no parts, the parts separated by `sep` otherwise. */
  function Join(parts: seq<string>, sep: char): string
  {
    if |parts| == 0 then ""
    else if |parts| == 1 then parts[0]
    else parts[0] + [sep] + Join(parts[1..], sep)
  }

  /** `s.split(sep)`: the maximal separator-free pieces, always at least one. */
  function Split(s: string, sep: char): (pieces: seq<string>)
    ensures |pieces| >= 1
    decreases |s|
  {
    if |s| == 0 then [""]
    else
      var rest := Split(s[1..], sep);
      if s[0] == sep then [""] + rest
      else [[s[0]] + rest[0]] + rest[1..]
  }

  /** The pieces of every part, one after the other. */
  function SplitEach(parts: seq<string>, sep: char): seq<string>
  {
    if |parts| == 0 then [] else Split(parts[0], sep) + SplitEach(parts[1..], sep)
  }

  /** Splitting at one separator splits the two sides independently. */
  lemma {:induction false} SplitAround(x: string, y: string, sep: char)
    ensures Split(x + [sep] + y, sep) == Split(x, sep) + Split(y, sep)
    decreases |x|
  {
    var s := x + [sep] + y;
    if |x| == 0 {
      assert s[1..] == y;
    } else {
      assert s[1..] == x[1..] + [sep] + y;
      SplitAround(x[1..], y, sep);
    }
  }

  /** A piece splits into itself alone exactly when it holds no separator. */
  lemma {:induction false} SplitSingle(p: string, sep: char)
    ensures sep !in p ==> Split(p, sep) == [p]
    ensures sep in p ==> |Split(p, sep)| >= 2
    decreases |p|
  {
    if sep in p {
      var k :| 0 <= k < |p| && p[k] == sep;
      assert p == p[..k] + [sep] + p[k + 1..];
      SplitAround(p[..k], p[k + 1..], sep);
    } else if |p| > 0 {
      SplitSingle(p[1..], sep);
      assert [p[0]] + p[1..] == p;
    }
  }

  lemma {:induction false} SplitJoin(parts: seq<string>, sep: char)
    requires |parts| >= 1
    ensures Split(Join(parts, sep), sep) == SplitEach(parts, sep)
  {
    if |parts| == 1 {
      assert SplitEach(parts[1..], sep) == [];
    } else {
      SplitAround(parts[0], Join(parts[1..], sep), sep);
      SplitJoin(parts[1..], sep);
    }
  }

  lemma {:induction false} SplitEachFree(parts: seq<string>, sep: char)
    ensures (forall i :: 0 <= i < |parts| ==> sep !in parts[i]) ==> SplitEach(parts, sep) == parts
    ensures (exists i :: 0 <= i < |parts| && sep in parts[i]) ==> |SplitEach(parts, sep)| > |parts|
  {
    if |parts| > 0 {
      SplitSingle(parts[0], sep);
      SplitEachFree(parts[1..], sep);
      if exists i :: 0 <= i < |parts| && sep in parts[i] {
        var i :| 0 <= i < |parts| && sep in parts[i];
        if i > 0 {
          assert sep in parts[1..][i - 1];
        }
      }
    }
  }

  /**
   * Round trip: when no part holds the separator, splitting the joined text
   * gives the parts back.
   */
  lemma SplitJoinRoundTrip(parts: seq<string>, sep: char)
    requires |parts| >= 1
    requires forall i :: 0 <= i < |parts| ==> sep !in parts[i]
    ensures Split(Join(parts, sep), sep) == parts
  {
    SplitJoin(parts, sep);
    SplitEachFree(parts, sep);
  }

  /**
   * Without quoting the round trip fails: a part that holds the separator
   * makes split return more pieces than were joined.
   */
  lemma SplitJoinBreaks(parts: seq<string>, sep: char, i: nat)
    requires i < |parts| && sep in parts[i]
    ensures |Split(Join(parts, sep), sep)| > |parts|
    ensures Split(Join(parts, sep), sep) != parts
  {
    SplitJoin(parts, sep);
    SplitEachFree(parts, sep);
  }

  lemma {:induction false} JoinAppend(a: seq<string>, b: seq<string>, sep: char)
    requires |a| >= 1 && |b| >= 1
    ensures Join(a + b, sep) == Join(a, sep) + [sep] + Join(b, sep)
  {
    if |a| > 1 {
      assert (a + b)[1..] == a[1..] + b;
      JoinAppend(a[1..], b, sep);
    }
  }

  /** A character that is not the separator and is in no part is not in the joined text. */
  lemma {:induction false} JoinOmits(parts: seq<string>, sep: char, c: char)
    requires c != sep
    requires forall i :: 0 <= i < |parts| ==> c !in parts[i]
    ensures c !in Join(parts, sep)
  {
    if |parts| > 1 {
      JoinOmits(parts[1..], sep, c);
    }
  }
}
