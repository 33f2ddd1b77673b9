/**
 * The name of a job's output file:
 *   <source name, diacritics stripped, cut to 30 characters>-<id>-<unix seconds>-dreamtime.png
 * The diacritic stripping (lodash `_.deburr`) is passed in as `deburr`, and
 * the clock reading as `now`.
 */
module FileNames {
  import opened JsText

  /** Longest part of the source name kept in the output name. */
  const NameLength: nat := 30

  /** Fixed ending of every output name. */
  const Suffix: string := "-dreamtime.png"

  /** The normalized source name: deburred, then cut to `NameLength` characters
      with no omission marker. */
  function NamePart(deburr: string -> string, sourceName: string): (r: string)
    ensures |r| == if |deburr(sourceName)| <= NameLength then |deburr(sourceName)| else NameLength
    ensures r == deburr(sourceName)[..|r|]
    ensures |deburr(sourceName)| <= NameLength ==> r == deburr(sourceName)
  {
    Truncate(deburr(sourceName), NameLength)
  }

  /** PhotoJob.getFileName for a job `id` and a clock reading `now`. The name
      begins with the (at most 30-character) name part followed by '-', and ends
      with "-dreamtime.png". */
  function FileName(deburr: string -> string, sourceName: string, id: nat, now: int): (r: string)
    ensures var p := NamePart(deburr, sourceName);
      && |r| > |p| + |Suffix|
      && r[..|p|] == p
      && r[|p|] == '-'
      && EndsWith(r, Suffix)
  {
    var p, t := NamePart(deburr, sourceName), Tail(id, now);
    EndsWithAfterPrefix(p + "-", t, Suffix);
    p + "-" + t
  }

  /** What follows the name part: "<id>-<now>-dreamtime.png". */
  function Tail(id: nat, now: int): (r: string)
    ensures |r| > |Suffix| && EndsWith(r, Suffix)
  {
    var x := NatToString(id) + "-" + IntToString(now);
    assert (x + Suffix)[|x + Suffix| - |Suffix|..] == Suffix;
    x + Suffix
  }

  /** A decimal rendering holds no '-'. */
  lemma NoDashInNatToString(n: nat)
    ensures '-' !in NatToString(n)
  {
    var a := NatToString(n);
    assert forall i :: 0 <= i < |a| ==> a[i] != '-';
  }

  /** In `x + [c] + y` with no `c` in `x`, the first `c` stands at index `|x|`. */
  lemma FirstOccurrence(x: string, y: string, c: char)
    requires c !in x
    ensures (x + [c] + y)[|x|] == c
    ensures forall i :: 0 <= i < |x| ==> (x + [c] + y)[i] != c
  {
    assert forall i :: 0 <= i < |x| ==> (x + [c] + y)[i] == x[i];
  }

  /** Cutting at the first occurrence of a character `c` is unambiguous. */
  lemma {:induction false} CutAtFirst(x: string, y: string, x': string, y': string, c: char)
    requires c !in x && c !in x'
    requires x + [c] + y == x' + [c] + y'
    ensures x == x' && y == y'
  {
    var s := x + [c] + y;
    FirstOccurrence(x, y, c);
    FirstOccurrence(x', y', c);
    assert |x| == |x'|;
    assert x == s[..|x|] && x' == (x' + [c] + y')[..|x'|];
    assert y == s[|x| + 1..] && y' == (x' + [c] + y')[|x'| + 1..];
  }

  /** A common ending can be dropped. */
  lemma DropCommonEnd(a: string, b: string, e: string)
    requires a + e == b + e
    ensures a == b
  {
    assert a == (a + e)[..|a|];
    assert b == (b + e)[..|b|];
  }

  /** Two strings of the form `a-n<e>` with no '-' in `a` and the same ending
      `e` agree exactly when their `a` and `n` do. */
  lemma CutDashed(a1: string, n1: string, a2: string, n2: string, e: string)
    requires '-' !in a1 && '-' !in a2
    requires a1 + "-" + n1 + e == a2 + "-" + n2 + e
    ensures a1 == a2 && n1 == n2
  {
    assert a1 + "-" + n1 + e == a1 + ['-'] + (n1 + e);
    assert a2 + "-" + n2 + e == a2 + ['-'] + (n2 + e);
    CutAtFirst(a1, n1 + e, a2, n2 + e, '-');
    DropCommonEnd(n1, n2, e);
  }

  /** The tail determines the id and the clock reading: the id is everything
      before the first '-', the clock reading what lies between it and the
      suffix. */
  lemma TailInjective(id1: nat, now1: int, id2: nat, now2: int)
    requires Tail(id1, now1) == Tail(id2, now2)
    ensures id1 == id2 && now1 == now2
  {
    NoDashInNatToString(id1);
    NoDashInNatToString(id2);
    CutDashed(NatToString(id1), IntToString(now1), NatToString(id2), IntToString(now2), Suffix);
    NatToStringInjective(id1, id2);
    IntToStringInjective(now1, now2);
  }

  /** A job's name ends in "-<id>-<unix seconds>-dreamtime.png". */
  lemma NameEndsWithTail(deburr: string -> string, sourceName: string, id: nat, now: int)
    ensures EndsWith(FileName(deburr, sourceName, id, now), "-" + Tail(id, now))
  {
    EndsWithLastTwo(NamePart(deburr, sourceName), "-", Tail(id, now));
  }

  /** The tail spelled out, for an id whose decimal rendering is `d`. */
  lemma TailSpelled(id: nat, now: int, d: string)
    requires NatToString(id) == d
    ensures "-" + Tail(id, now) == "-" + d + "-" + IntToString(now) + Suffix
  {
    var n := IntToString(now);
    assert Tail(id, now) == d + "-" + n + Suffix;
  }

  /** "-" + "42" + "-" is "-42-", whatever follows. */
  lemma Dash42Dash(n: string, e: string)
    ensures "-" + "42" + "-" + n + e == "-42-" + n + e
  {
    assert "-" + "42" + "-" == "-42-";
  }

  /** Job 42 gets a name ending in "-42-<unix seconds>-dreamtime.png". */
  lemma NameEndsWithIdAndTime(deburr: string -> string, sourceName: string, now: int)
    ensures EndsWith(FileName(deburr, sourceName, 42, now), "-42-" + IntToString(now) + Suffix)
  {
    NameEndsWithTail(deburr, sourceName, 42, now);
    assert NatToString(42) == "42";
    TailSpelled(42, now, "42");
    Dash42Dash(IntToString(now), Suffix);
  }

  /** Two runs of the same photo get the same output name exactly when they
      have the same id and the same clock reading: distinct ids, or one id at
      distinct instants, never collide. */
  lemma FileNameUnique(deburr: string -> string, sourceName: string,
                       id1: nat, now1: int, id2: nat, now2: int)
    ensures FileName(deburr, sourceName, id1, now1) == FileName(deburr, sourceName, id2, now2)
            <==> id1 == id2 && now1 == now2
  {
    var p := NamePart(deburr, sourceName) + "-";
    var r1, r2 := FileName(deburr, sourceName, id1, now1), FileName(deburr, sourceName, id2, now2);
    assert r1 == p + Tail(id1, now1);
    assert r2 == p + Tail(id2, now2);
    if r1 == r2 {
      assert Tail(id1, now1) == r1[|p|..];
      assert Tail(id2, now2) == r2[|p|..];
      TailInjective(id1, now1, id2, now2);
    }
  }

}
