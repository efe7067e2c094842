/** Phone extraction (`extract_phones`): two independent `re.findall` scans of
    the page text, one for landlines (`9\d{8}`) and one for mobiles
    (`[67]\d{8}`), each list replaced by `[Sentinel]` when it comes back empty. */
module Phones {
  import opened Common

  datatype Kind = Landline | Mobile

  /** Both patterns match exactly nine characters. */
  const PhoneLength: nat := 9

  /** The first character the pattern of kind `k` accepts. */
  predicate Lead(k: Kind, c: char) {
    match k
    case Landline => c == '9'
    case Mobile => c == '6' || c == '7'
  }

  /** `p` is a whole match of the pattern of kind `k`. */
  predicate IsPhone(k: Kind, p: string) {
    |p| == PhoneLength && Lead(k, p[0]) && forall j :: 0 <= j < |p| ==> IsDigit(p[j])
  }

  /** The pattern of kind `k` matches `s` at position `i`. */
  predicate MatchAt(k: Kind, s: string, i: int) {
    0 <= i && i + PhoneLength <= |s| && IsPhone(k, s[i..i + PhoneLength])
  }

  /** No position of `s` matches the pattern of kind `k`. */
  ghost predicate NoMatch(k: Kind, s: string) {
    forall j :: !MatchAt(k, s, j)
  }

  /** The start positions `re.findall` reports when its scan stands at `i`:
      try the pattern at `i`; on a match report it and resume after it,
      otherwise move on by one character. */
  function ScanFrom(k: Kind, s: string, i: nat): (ps: seq<nat>)
    requires i <= |s|
    decreases |s| - i
    ensures forall n :: 0 <= n < |ps| ==> i <= ps[n] && MatchAt(k, s, ps[n])
    ensures forall a, b :: 0 <= a < b < |ps| ==> ps[a] + PhoneLength <= ps[b]
  {
    if |s| - i < PhoneLength then []
    else if MatchAt(k, s, i) then [i] + ScanFrom(k, s, i + PhoneLength)
    else ScanFrom(k, s, i + 1)
  }

  /** Position `j` lies inside one of the nine-character matches that start
      at the positions `ps`. */
  predicate Covered(ps: seq<nat>, j: int) {
    |ps| > 0 && (ps[0] <= j < ps[0] + PhoneLength || Covered(ps[1..], j))
  }

  /** The match of `ps` that covers `j`. */
  lemma {:induction false} CoveringIndex(ps: seq<nat>, j: int) returns (n: nat)
    requires Covered(ps, j)
    ensures n < |ps| && ps[n] <= j < ps[n] + PhoneLength
  {
    if ps[0] <= j < ps[0] + PhoneLength {
      n := 0;
    } else {
      var m := CoveringIndex(ps[1..], j);
      n := m + 1;
    }
  }

  /** What `re.findall` promises of a list of match positions taken from `i` on:
      every entry is a match, the matches do not overlap and go left to right,
      and every match position from `i` on is reported or lies inside a
      reported match. */
  ghost predicate IsFindAll(k: Kind, s: string, i: nat, ps: seq<nat>) {
    && (forall n :: 0 <= n < |ps| ==> i <= ps[n] && MatchAt(k, s, ps[n]))
    && (forall a, b :: 0 <= a < b < |ps| ==> ps[a] + PhoneLength <= ps[b])
    && (forall j :: i <= j && MatchAt(k, s, j) ==> Covered(ps, j))
  }

  /** The scan misses no match: every match position is reported or covered. */
  lemma {:induction false} ScanCovers(k: Kind, s: string, i: nat, j: int)
    requires i <= |s| && i <= j && MatchAt(k, s, j)
    decreases |s| - i
    ensures Covered(ScanFrom(k, s, i), j)
  {
    var ps := ScanFrom(k, s, i);
    if MatchAt(k, s, i) {
      if i + PhoneLength <= j {
        ScanCovers(k, s, i + PhoneLength, j);
        assert ps[1..] == ScanFrom(k, s, i + PhoneLength);
      }
    } else {
      ScanCovers(k, s, i + 1, j);
    }
  }

  /** The scanner does what `re.findall` promises. */
  lemma ScanIsFindAll(k: Kind, s: string, i: nat)
    requires i <= |s|
    ensures IsFindAll(k, s, i, ScanFrom(k, s, i))
  {
    forall j | i <= j && MatchAt(k, s, j)
      ensures Covered(ScanFrom(k, s, i), j)
    {
      ScanCovers(k, s, i, j);
    }
  }

  /** When the pattern matches at `i`, a list keeping the promise from `i`
      reports `i` first and keeps the promise from after that match. */
  lemma FindAllAfterMatch(k: Kind, s: string, i: nat, ps: seq<nat>)
    requires IsFindAll(k, s, i, ps) && MatchAt(k, s, i)
    ensures |ps| > 0 && ps[0] == i
    ensures i + PhoneLength <= |s| && IsFindAll(k, s, i + PhoneLength, ps[1..])
  {
    var n := CoveringIndex(ps, i);
    if n > 0 {
      assert false;
    }
    var rest := ps[1..];
    forall m | 0 <= m < |rest|
      ensures i + PhoneLength <= rest[m]
    {
      assert ps[0] + PhoneLength <= ps[m + 1];
    }
  }

  /** When the pattern does not match at `i`, a list keeping the promise from
      `i` keeps it from `i + 1`. */
  lemma FindAllAfterMiss(k: Kind, s: string, i: nat, ps: seq<nat>)
    requires IsFindAll(k, s, i, ps) && !MatchAt(k, s, i)
    ensures IsFindAll(k, s, i + 1, ps)
  {
    forall m | 0 <= m < |ps|
      ensures i + 1 <= ps[m]
    {
      assert MatchAt(k, s, ps[m]);
    }
  }

  /** `re.findall`'s promise pins the positions down: the scanner's list is the
      only one that keeps it. */
  lemma {:induction false} FindAllUnique(k: Kind, s: string, i: nat, ps: seq<nat>)
    requires i <= |s|
    requires IsFindAll(k, s, i, ps)
    decreases |s| - i
    ensures ps == ScanFrom(k, s, i)
  {
    if |s| - i < PhoneLength {
      if |ps| > 0 {
        assert false;
      }
    } else if MatchAt(k, s, i) {
      FindAllAfterMatch(k, s, i, ps);
      FindAllUnique(k, s, i + PhoneLength, ps[1..]);
      assert ps == [i] + ps[1..];
    } else {
      FindAllAfterMiss(k, s, i, ps);
      FindAllUnique(k, s, i + 1, ps);
    }
  }

  /** `re.findall(pattern, text)`: the matched substrings, left to right. */
  function FindAll(k: Kind, text: string): (r: seq<string>)
    ensures |r| == |ScanFrom(k, text, 0)|
    ensures forall n :: 0 <= n < |r| ==>
              r[n] == text[ScanFrom(k, text, 0)[n]..ScanFrom(k, text, 0)[n] + PhoneLength]
    ensures forall n :: 0 <= n < |r| ==> IsPhone(k, r[n])
    ensures r == [] <==> NoMatch(k, text)
  {
    var ps := ScanFrom(k, text, 0);
    if ps == [] then
      assert NoMatch(k, text) by {
        forall j | MatchAt(k, text, j) ensures false {
          ScanCovers(k, text, 0, j);
        }
      }
      []
    else
      assert MatchAt(k, text, ps[0]);
      seq(|ps|, n requires 0 <= n < |ps| => text[ps[n]..ps[n] + PhoneLength])
  }

  /** The two lists `extract_phones` returns under the keys 'fijos' and 'moviles'. */
  datatype PhoneFindings = PhoneFindings(fijos: seq<string>, moviles: seq<string>)

  /** `xs if xs else ['Sin datos por el momento']` */
  function OrSentinelList(xs: seq<string>): seq<string> {
    if xs == [] then [Sentinel] else xs
  }

  /** `extract_phones(text)` */
  function ExtractPhones(text: string): (r: PhoneFindings)
    ensures r.fijos != [] && r.moviles != []
    ensures r.fijos == [Sentinel] <==> NoMatch(Landline, text)
    ensures r.moviles == [Sentinel] <==> NoMatch(Mobile, text)
    ensures r.fijos != [Sentinel] ==> forall n :: 0 <= n < |r.fijos| ==> IsPhone(Landline, r.fijos[n])
    ensures r.moviles != [Sentinel] ==> forall n :: 0 <= n < |r.moviles| ==> IsPhone(Mobile, r.moviles[n])
    ensures !NoMatch(Landline, text) ==> r.fijos == FindAll(Landline, text)
    ensures !NoMatch(Mobile, text) ==> r.moviles == FindAll(Mobile, text)
  {
    var fijos, moviles := FindAll(Landline, text), FindAll(Mobile, text);
    assert |Sentinel| != PhoneLength;
    assert !IsPhone(Landline, Sentinel) && !IsPhone(Mobile, Sentinel);
    assert fijos != [] ==> IsPhone(Landline, fijos[0]);
    assert moviles != [] ==> IsPhone(Mobile, moviles[0]);
    PhoneFindings(OrSentinelList(fijos), OrSentinelList(moviles))
  }

  /** The two scans are independent: one digit run can give a landline and,
      overlapping it, a mobile. */
  lemma LandlineAndMobileOverlap()
    ensures ExtractPhones("9612345678") == PhoneFindings(["961234567"], ["612345678"])
  {
    var s := "9612345678";
    assert MatchAt(Landline, s, 0);
    assert ScanFrom(Landline, s, 0) == [0];
    assert !MatchAt(Mobile, s, 0);
    assert MatchAt(Mobile, s, 1);
    assert ScanFrom(Mobile, s, 1) == [1];
    assert s[0..9] == "961234567";
    assert s[1..10] == "612345678";
  }

  /** A scan resumes after each match, so a number that starts inside an
      earlier match of the same pattern is not reported: "7612345678"
      contains "612345678" yet gives only "761234567" as a mobile. */
  lemma MobileInsideMobileNotReported()
    ensures ExtractPhones("7612345678").moviles == ["761234567"]
  {
    var s := "7612345678";
    assert MatchAt(Mobile, s, 0);
    assert ScanFrom(Mobile, s, 9) == [];
    assert ScanFrom(Mobile, s, 0) == [0];
    assert s[0..9] == "761234567";
  }

  /** The layout of `', '.join` over nine-character numbers: number `n` sits
      at offset `11 * n`, and `", "` separates each number from the next. */
  lemma {:induction false} JoinedLayout(xs: seq<string>)
    requires xs != []
    requires forall n :: 0 <= n < |xs| ==> |xs[n]| == PhoneLength
    ensures |Join(xs, ", ")| == 11 * |xs| - 2
    ensures forall n :: 0 <= n < |xs| ==> Join(xs, ", ")[11 * n..11 * n + PhoneLength] == xs[n]
    ensures forall n :: 0 <= n < |xs| - 1 ==> Join(xs, ", ")[11 * n + PhoneLength..11 * n + 11] == ", "
  {
    if |xs| > 1 {
      var tail := xs[1..];
      JoinedLayout(tail);
      var rest := Join(tail, ", ");
      var r := xs[0] + ", " + rest;
      assert Join(xs, ", ") == r;
      forall n | 0 <= n < |xs|
        ensures r[11 * n..11 * n + PhoneLength] == xs[n]
      {
        if n > 0 {
          assert r[11 * n..11 * n + PhoneLength] == rest[11 * (n - 1)..11 * (n - 1) + PhoneLength];
          assert xs[n] == tail[n - 1];
        }
      }
      forall n | 0 <= n < |xs| - 1
        ensures r[11 * n + PhoneLength..11 * n + 11] == ", "
      {
        if n > 0 {
          assert r[11 * n + PhoneLength..11 * n + 11] == rest[11 * (n - 1) + PhoneLength..11 * (n - 1) + 11];
        }
      }
    }
  }

  /** A joined non-empty list of numbers is never the placeholder, and it
      reads back as that list. */
  lemma JoinedPhones(k: Kind, xs: seq<string>)
    requires xs != []
    requires forall n :: 0 <= n < |xs| ==> IsPhone(k, xs[n])
    ensures Join(xs, ", ") != Sentinel
    ensures SplitPhoneField(Join(xs, ", ")) == xs
  {
    assert IsPhone(k, xs[0]);
    assert Join(xs, ", ")[..PhoneLength] == xs[0];
    assert IsDigit(Join(xs, ", ")[0]);
    SplitJoin(xs);
  }

  /** Inverse of `', '.join` over nine-character entries: cut the field back
      into its numbers. */
  function SplitPhoneField(field: string): (r: seq<string>)
    decreases |field|
  {
    if |field| <= PhoneLength + 2 then [field[..if |field| < PhoneLength then |field| else PhoneLength]]
    else [field[..PhoneLength]] + SplitPhoneField(field[PhoneLength + 2..])
  }

  /** A joined phone list is read back exactly: the ", "-separated field
      loses nothing. */
  lemma {:induction false} SplitJoin(xs: seq<string>)
    requires xs != []
    requires forall n :: 0 <= n < |xs| ==> |xs[n]| == PhoneLength
    ensures SplitPhoneField(Join(xs, ", ")) == xs
  {
    if |xs| > 1 {
      var rest := Join(xs[1..], ", ");
      SplitJoin(xs[1..]);
      var field := xs[0] + ", " + rest;
      assert Join(xs, ", ") == field;
      assert |field| > PhoneLength + 2 by {
        assert |xs[1]| <= |rest|;
      }
      assert field[..PhoneLength] == xs[0];
      assert field[PhoneLength + 2..] == rest;
      assert xs == [xs[0]] + xs[1..];
    }
  }
}
