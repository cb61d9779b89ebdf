/**
 Version ordering and the update flags built on it.
 */
module Versions {
  import opened Decimals

  const MaxInt: nat := 0x7fff_ffff_ffff_ffff

  // ---------- Strings ----------

  predicate HasPrefix(s: string, prefix: string) {
    prefix <= s
  }

  predicate Contains(s: string, sub: string) {
    sub <= s || (s != "" && Contains(s[1..], sub))
  }

  function TrimPrefix(s: string, prefix: string): string {
    if prefix <= s then s[|prefix|..] else s
  }

  /** The part of a string before the first occurrence of a separator. */
  function Before(s: string, sep: string): string {
    if s == "" || sep <= s then "" else [s[0]] + Before(s[1..], sep)
  }

  /** Where the last occurrence of `sub` starts, or -1. */
  function LastIndex(s: string, sub: string): (i: int)
    ensures -1 <= i <= |s| && (i >= 0 ==> i + |sub| <= |s|)
  {
    if s == "" then (if sub == "" then 0 else -1)
    else
      var later := LastIndex(s[1..], sub);
      if later >= 0 then later + 1 else if sub <= s then 0 else -1
  }

  function LastPart(s: string): string {
    var parts := Split(s, '.');
    parts[|parts| - 1]
  }

  // ---------- Version strings ----------

  function DigitPrefix(s: string): (k: nat)
    ensures k <= |s| && AllDigits(s[..k]) && (k < |s| ==> !IsDigit(s[k]))
  {
    if s == "" || !IsDigit(s[0]) then 0 else 1 + DigitPrefix(s[1..])
  }

  /** The number a part starts with; 0 if it starts with none or with one that does not fit an int. */
  function NumberOf(part: string): nat {
    var n := Value(part[..DigitPrefix(part)]);
    if n > MaxInt then 0 else n
  }

  method ParseVersionPart(part: string) returns (n: nat)
    ensures n == NumberOf(part) && n <= MaxInt
  {
    var i := 0;
    while i < |part| && IsDigit(part[i])
      invariant 0 <= i <= |part| && AllDigits(part[..i])
    {
      i := i + 1;
    }
    LongestPrefix(part, i);
    if i == 0 {
      return 0;
    }
    var num := Value(part[..i]);
    return if num > MaxInt then 0 else num;
  }

  lemma {:induction false} LongestPrefix(s: string, k: nat)
    requires k <= |s| && AllDigits(s[..k]) && (k < |s| ==> !IsDigit(s[k]))
    ensures DigitPrefix(s) == k
  {
    if k > 0 {
      assert s[1..][..k - 1] == s[..k][1..] && IsDigit(s[..k][0]);
      LongestPrefix(s[1..], k - 1);
    }
  }

  function ExtractCommitFromVersion(v: string): string {
    if HasPrefix(v, "dev-") then TrimPrefix(v, "dev-")
    else if Contains(v, "-stable.") || Contains(v, "-test.") then LastPart(v)
    else ""
  }

  function ExtractCommitHash(v: string): string {
    if HasPrefix(v, "test-") then
      var idx := LastIndex(v, "-g");
      if idx >= 0 && idx + 2 < |v| then v[idx + 2..]
      else
        var parts := Split(v, '-');
        if |parts| > 1 then parts[1] else ""
    else if Contains(v, "-test.") then LastPart(v)
    else ""
  }

  predicate IsDev(v: string) {
    v == "dev" || v == "unknown" || HasPrefix(v, "dev-")
  }

  predicate IsPreRelease(v: string) {
    Contains(v, "-test") || HasPrefix(v, "test-")
  }

  // ---------- Comparing ----------

  function Numbers(v: string): seq<nat> {
    NumbersOf(Split(v, '.'))
  }

  function NumbersOf(parts: seq<string>): (ns: seq<nat>)
    ensures |ns| == |parts| && forall i :: 0 <= i < |ns| ==> ns[i] == NumberOf(parts[i])
  {
    if parts == [] then [] else [NumberOf(parts[0])] + NumbersOf(parts[1..])
  }

  /** Part number `i`, where a version goes on with zeros for ever. */
  function At(ns: seq<nat>, i: nat): nat {
    if i < |ns| then ns[i] else 0
  }

  function CompareNumbers(a: seq<nat>, b: seq<nat>, i: nat): int
    decreases |a| + |b| - i
  {
    if i >= |a| && i >= |b| then 0
    else if At(a, i) < At(b, i) then -1
    else if At(a, i) > At(b, i) then 1
    else CompareNumbers(a, b, i + 1)
  }

  /** The whole comparison, of versions whose `v` has been trimmed. */
  function CompareTrimmed(v1: string, v2: string): int {
    var commit1, commit2 := ExtractCommitFromVersion(v1), ExtractCommitFromVersion(v2);
    var legacy1, legacy2 := Contains(v1, "-stable."), Contains(v2, "-stable.");
    if v1 == v2 then 0
    else if commit1 != "" && commit2 != "" && commit1 == commit2 then 0
    else if legacy1 && legacy2 && Before(v1, "-stable.") == Before(v2, "-stable.") then 0
    else if !legacy1 && legacy2 && commit1 == "" then 1
    else if legacy1 && !legacy2 && commit2 == "" then -1
    else if IsDev(v1) then -1
    else if IsDev(v2) then 1
    else
      var hash1, hash2 := ExtractCommitHash(v1), ExtractCommitHash(v2);
      if IsPreRelease(v1) && IsPreRelease(v2) then
        if hash1 != "" && hash2 != "" && hash1 == hash2 then 0 else -1
      else if hash1 != "" then -1
      else if hash2 != "" then 1
      else CompareNumbers(Numbers(v1), Numbers(v2), 0)
  }

  function Compare(v1: string, v2: string): int {
    CompareTrimmed(TrimPrefix(v1, "v"), TrimPrefix(v2, "v"))
  }

  /** Append zeros up to a length; the numbers, going on with zeros for ever, stay the same. */
  method Pad(parts: seq<string>, maxLen: nat) returns (padded: seq<string>)
    requires |parts| <= maxLen
    ensures |padded| == maxLen && parts <= padded
    ensures forall i :: 0 <= i < maxLen ==> NumberOf(padded[i]) == At(NumbersOf(parts), i)
  {
    Zero();
    padded := parts;
    while |padded| < maxLen
      invariant |parts| <= |padded| <= maxLen && parts <= padded
      invariant forall i :: 0 <= i < |padded| ==> NumberOf(padded[i]) == At(NumbersOf(parts), i)
    {
      padded := padded + ["0"];
    }
  }

  /** The loop at the end of the comparison: pad the shorter version, then compare part by part. */
  method CompareParts(v1: string, v2: string) returns (r: int)
    ensures r == CompareNumbers(Numbers(v1), Numbers(v2), 0)
  {
    var parts1, parts2 := Split(v1, '.'), Split(v2, '.');
    ghost var a, b := Numbers(v1), Numbers(v2);
    var maxLen := if |parts2| > |parts1| then |parts2| else |parts1|;
    parts1 := Pad(parts1, maxLen);
    parts2 := Pad(parts2, maxLen);
    var i := 0;
    while i < maxLen
      invariant 0 <= i <= maxLen
      invariant CompareNumbers(a, b, 0) == CompareNumbers(a, b, i)
    {
      var num1 := ParseVersionPart(parts1[i]);
      var num2 := ParseVersionPart(parts2[i]);
      if num1 < num2 {
        return -1;
      }
      if num1 > num2 {
        return 1;
      }
      i := i + 1;
    }
    return 0;
  }

  lemma Zero()
    ensures NumberOf("0") == 0
  {
    assert DigitPrefix("0") == 1;
    assert "0"[..1] == "0" && "0"[..0] == "";
    assert Value("0") == 10 * Value("0"[..0]) + ValueOf('0');
  }

  method CompareVersions(version1: string, version2: string) returns (r: int)
    ensures r == Compare(version1, version2)
  {
    var v1, v2 := TrimPrefix(version1, "v"), TrimPrefix(version2, "v");
    if v1 == v2 {
      return 0;
    }
    var commit1, commit2 := ExtractCommitFromVersion(v1), ExtractCommitFromVersion(v2);
    if commit1 != "" && commit2 != "" && commit1 == commit2 {
      return 0;
    }
    var legacy1, legacy2 := Contains(v1, "-stable."), Contains(v2, "-stable.");
    if legacy1 && legacy2 {
      if Before(v1, "-stable.") == Before(v2, "-stable.") {
        return 0;
      }
    }
    if !legacy1 && legacy2 && commit1 == "" {
      return 1;
    }
    if legacy1 && !legacy2 && commit2 == "" {
      return -1;
    }
    if IsDev(v1) {
      return -1;
    }
    if IsDev(v2) {
      return 1;
    }
    var hash1, hash2 := ExtractCommitHash(v1), ExtractCommitHash(v2);
    if IsPreRelease(v1) && IsPreRelease(v2) {
      if hash1 != "" && hash2 != "" {
        return if hash1 == hash2 then 0 else -1;
      }
      return -1;
    }
    if hash1 != "" {
      return -1;
    }
    if hash2 != "" {
      return 1;
    }
    r := CompareParts(v1, v2);
  }

  // ---------- Plain releases ----------

  predicate Plain(v: string) {
    var t := TrimPrefix(v, "v");
    !IsDev(t) && !IsPreRelease(t) && !Contains(t, "-stable.")
  }

  function NumbersIn(v: string): seq<nat> {
    Numbers(TrimPrefix(v, "v"))
  }

  lemma {:induction false} ContainsShorter(s: string, sub: string, more: string)
    requires Contains(s, sub + more)
    ensures Contains(s, sub)
  {
    if sub + more <= s {
      assert sub <= sub + more;
    } else {
      ContainsShorter(s[1..], sub, more);
    }
  }

  /** Between plain releases only the numbers count. */
  lemma {:induction false} PlainCompare(v1: string, v2: string)
    requires Plain(v1) && Plain(v2)
    ensures Compare(v1, v2) == CompareNumbers(NumbersIn(v1), NumbersIn(v2), 0)
  {
    var t1, t2 := TrimPrefix(v1, "v"), TrimPrefix(v2, "v");
    NoHash(t1);
    NoHash(t2);
    if t1 == t2 {
      SameNumbers(Numbers(t1), 0);
    }
  }

  lemma {:induction false} NoHash(t: string)
    requires !IsDev(t) && !IsPreRelease(t) && !Contains(t, "-stable.")
    ensures ExtractCommitFromVersion(t) == "" && ExtractCommitHash(t) == ""
  {
    if Contains(t, "-test.") {
      assert "-test" + "." == "-test.";
      ContainsShorter(t, "-test", ".");
      assert false;
    }
  }

  lemma {:induction false} SameNumbers(a: seq<nat>, i: nat)
    ensures CompareNumbers(a, a, i) == 0
    decreases |a| - i
  {
    if i < |a| {
      SameNumbers(a, i + 1);
    }
  }

  /** `a` is before `b` in zero-padded lexicographic order. */
  ghost predicate LexLess(a: seq<nat>, b: seq<nat>) {
    exists k: nat :: At(a, k) < At(b, k) && forall j :: 0 <= j < k ==> At(a, j) == At(b, j)
  }

  ghost predicate LexEqual(a: seq<nat>, b: seq<nat>) {
    forall k: nat :: At(a, k) == At(b, k)
  }

  lemma {:induction false} CompareNumbersMeans(a: seq<nat>, b: seq<nat>, i: nat)
    requires forall j :: 0 <= j < i ==> At(a, j) == At(b, j)
    ensures var r := CompareNumbers(a, b, i);
            && (r == -1 || r == 0 || r == 1)
            && (r == -1 ==> LexLess(a, b)) && (r == 1 ==> LexLess(b, a)) && (r == 0 ==> LexEqual(a, b))
    decreases |a| + |b| - i
  {
    if (i < |a| || i < |b|) && At(a, i) == At(b, i) {
      CompareNumbersMeans(a, b, i + 1);
    }
  }

  lemma {:induction false} LexExclusive(a: seq<nat>, b: seq<nat>)
    requires LexLess(a, b)
    ensures !LexEqual(a, b) && !LexLess(b, a)
  {
    var k: nat :| At(a, k) < At(b, k) && forall j :: 0 <= j < k ==> At(a, j) == At(b, j);
    assert forall l: nat :: At(b, l) < At(a, l) ==> k < l;
  }

  lemma {:induction false} LexTransitive(a: seq<nat>, b: seq<nat>, c: seq<nat>)
    requires LexLess(a, b) && LexLess(b, c)
    ensures LexLess(a, c)
  {
    var k: nat :| At(a, k) < At(b, k) && forall j :: 0 <= j < k ==> At(a, j) == At(b, j);
    var l: nat :| At(b, l) < At(c, l) && forall j :: 0 <= j < l ==> At(b, j) == At(c, j);
    var m := if k < l then k else l;
    assert At(a, m) < At(c, m) && forall j :: 0 <= j < m ==> At(a, j) == At(c, j);
  }

  lemma {:induction false} LexShift(a: seq<nat>, b: seq<nat>, c: seq<nat>)
    requires LexEqual(a, b)
    ensures LexLess(b, c) ==> LexLess(a, c)
    ensures LexLess(c, b) ==> LexLess(c, a)
    ensures LexEqual(b, c) ==> LexEqual(a, c)
  {
    if LexLess(b, c) {
      var k: nat :| At(b, k) < At(c, k) && forall j :: 0 <= j < k ==> At(b, j) == At(c, j);
      assert At(a, k) < At(c, k) && forall j :: 0 <= j < k ==> At(a, j) == At(c, j);
    }
    if LexLess(c, b) {
      var k: nat :| At(c, k) < At(b, k) && forall j :: 0 <= j < k ==> At(c, j) == At(b, j);
      assert At(c, k) < At(a, k) && forall j :: 0 <= j < k ==> At(c, j) == At(a, j);
    }
  }

  /** On plain releases the comparison is exactly zero-padded lexicographic order of the numbers. */
  lemma {:induction false} PlainOrder(v1: string, v2: string)
    requires Plain(v1) && Plain(v2)
    ensures var a, b := NumbersIn(v1), NumbersIn(v2);
            && -1 <= Compare(v1, v2) <= 1
            && (Compare(v1, v2) < 0 <==> LexLess(a, b))
            && (Compare(v1, v2) > 0 <==> LexLess(b, a))
            && (Compare(v1, v2) == 0 <==> LexEqual(a, b))
  {
    var a, b := NumbersIn(v1), NumbersIn(v2);
    PlainCompare(v1, v2);
    CompareNumbersMeans(a, b, 0);
    if LexLess(a, b) {
      LexExclusive(a, b);
    }
    if LexLess(b, a) {
      LexExclusive(b, a);
    }
  }

  /** A total preorder: reflexive, total, antisymmetric up to equality, transitive. */
  lemma {:induction false} PlainIsTotalPreorder(v1: string, v2: string, v3: string)
    requires Plain(v1) && Plain(v2) && Plain(v3)
    ensures Compare(v1, v1) == 0
    ensures Compare(v2, v1) == -Compare(v1, v2)
    ensures Compare(v1, v2) <= 0 && Compare(v2, v3) <= 0 ==> Compare(v1, v3) <= 0
    ensures Compare(v1, v2) <= 0 && Compare(v2, v3) < 0 ==> Compare(v1, v3) < 0
  {
    var a, b, c := NumbersIn(v1), NumbersIn(v2), NumbersIn(v3);
    PlainOrder(v1, v2);
    PlainOrder(v2, v1);
    PlainOrder(v2, v3);
    PlainOrder(v1, v3);
    if LexLess(a, b) && LexLess(b, c) {
      LexTransitive(a, b, c);
    } else if LexEqual(a, b) {
      LexShift(a, b, c);
    } else if LexLess(a, b) && LexEqual(b, c) {
      LexShift(c, b, a);
    }
  }

  // ---------- Releases X.Y.Z ----------

  function Release(x: nat, y: nat, z: nat): string {
    Join([Numeral(x), Numeral(y), Numeral(z)], '.')
  }

  lemma {:induction false} ContainsAll(s: string, sub: string, c: char)
    requires Contains(s, sub) && c in sub
    ensures c in s
  {
    if !(sub <= s) {
      ContainsAll(s[1..], sub, c);
    }
  }

  lemma {:induction false} ReleaseChars(x: nat, y: nat, z: nat)
    ensures forall c :: c in Release(x, y, z) ==> IsDigit(c) || c == '.'
    ensures Release(x, y, z) != "" && IsDigit(Release(x, y, z)[0])
  {
    var parts := [Numeral(x), Numeral(y), Numeral(z)];
    assert parts[1..] == [Numeral(y), Numeral(z)] && parts[1..][1..] == [Numeral(z)];
    assert Join(parts[1..], '.') == Numeral(y) + ['.'] + Join(parts[1..][1..], '.');
    assert Release(x, y, z) == Numeral(x) + ['.'] + (Numeral(y) + ['.'] + Numeral(z));
  }

  lemma {:induction false} ReleaseIsPlain(x: nat, y: nat, z: nat)
    ensures Plain(Release(x, y, z))
  {
    var t := Release(x, y, z);
    ReleaseChars(x, y, z);
    assert 'v' !in t && 'd' !in t && 'u' !in t && 't' !in t && '-' !in t;
    assert t[0] != 'v' && t[0] != 'd' && t[0] != 'u' && t[0] != 't';
    if Contains(t, "-test") {
      ContainsAll(t, "-test", "-test"[0]);
      assert false;
    }
    if Contains(t, "-stable.") {
      ContainsAll(t, "-stable.", "-stable."[0]);
      assert false;
    }
    assert "test-"[0] == 't' && "dev-"[0] == 'd' && "dev"[0] == 'd' && "unknown"[0] == 'u' && "v"[0] == 'v';
  }

  lemma {:induction false} ReleaseNumbers(x: nat, y: nat, z: nat)
    requires x <= MaxInt && y <= MaxInt && z <= MaxInt
    ensures NumbersIn(Release(x, y, z)) == [x, y, z]
  {
    ReleaseChars(x, y, z);
    var parts := [Numeral(x), Numeral(y), Numeral(z)];
    NoneInDigits(parts[0], '.');
    NoneInDigits(parts[1], '.');
    NoneInDigits(parts[2], '.');
    SplitJoin(parts, '.');
    NumeralNumber(x);
    NumeralNumber(y);
    NumeralNumber(z);
    var ns := NumbersOf(parts);
    assert ns[0] == x && ns[1] == y && ns[2] == z;
    assert ns == [x, y, z];
  }

  lemma {:induction false} NumeralNumber(n: nat)
    requires n <= MaxInt
    ensures NumberOf(Numeral(n)) == n
  {
    var s := Numeral(n);
    assert s[..|s|] == s;
    LongestPrefix(s, |s|);
    NumeralDenotes(n);
  }

  /**
   X.Y.Z releases are ordered as item 11 of Semantic Versioning 2.0.0 says: by major, then minor, then
   patch number, each compared as a number.
   */
  lemma {:induction false} SemanticVersionOrder(x: nat, y: nat, z: nat, x': nat, y': nat, z': nat)
    requires x <= MaxInt && y <= MaxInt && z <= MaxInt
    requires x' <= MaxInt && y' <= MaxInt && z' <= MaxInt
    ensures Compare(Release(x, y, z), Release(x', y', z')) < 0
            <==> x < x' || (x == x' && (y < y' || (y == y' && z < z')))
    ensures Compare(Release(x, y, z), Release(x', y', z')) == 0 <==> x == x' && y == y' && z == z'
  {
    ReleaseIsPlain(x, y, z);
    ReleaseIsPlain(x', y', z');
    ReleaseNumbers(x, y, z);
    ReleaseNumbers(x', y', z');
    PlainCompare(Release(x, y, z), Release(x', y', z'));
    var a, b := [x, y, z], [x', y', z'];
    assert CompareNumbers(a, b, 3) == 0;
    assert CompareNumbers(a, b, 2) == if z < z' then -1 else if z > z' then 1 else 0;
    assert CompareNumbers(a, b, 1) == if y < y' then -1 else if y > y' then 1 else CompareNumbers(a, b, 2);
  }

  // ---------- The update flags ----------

  predicate IsUpdateAvailable(client: string, latest: string) {
    Compare(client, latest) < 0
  }

  predicate Exempt(minimum: string) {
    minimum == "" || minimum == "v0.0.0" || minimum == "0.0.0"
  }

  predicate IsUpdateRequired(client: string, minimum: string) {
    !Exempt(minimum) && Compare(client, minimum) < 0
  }

  datatype Flags = Flags(available: bool, required: bool)

  function GetVersionInfo(client: string, minimum: string, latest: string, forceUpdate: bool): Flags {
    var available := IsUpdateAvailable(client, latest);
    var required := IsUpdateRequired(client, minimum);
    Flags(available, if forceUpdate && available then true else required)
  }

  ghost predicate NeverRequiredWithoutBeingAvailable(minimum: string, latest: string, forceUpdate: bool) {
    forall client | Plain(client) ::
      var flags := GetVersionInfo(client, minimum, latest, forceUpdate);
      flags.required ==> flags.available
  }

  /**
   Among plain releases a configuration never demands an update that is not there, forced or not,
   exactly when its minimum is no minimum or not above its latest version.
   */
  lemma {:induction false} RequiredImpliesAvailable(minimum: string, latest: string, forceUpdate: bool)
    requires Plain(minimum) && Plain(latest)
    ensures NeverRequiredWithoutBeingAvailable(minimum, latest, forceUpdate)
            <==> Exempt(minimum) || Compare(minimum, latest) <= 0
  {
    PlainIsTotalPreorder(latest, minimum, latest);
    if Exempt(minimum) || Compare(minimum, latest) <= 0 {
      forall client | Plain(client)
        ensures var flags := GetVersionInfo(client, minimum, latest, forceUpdate);
                flags.required ==> flags.available
      {
        PlainIsTotalPreorder(client, minimum, client);
        PlainIsTotalPreorder(client, latest, client);
        PlainIsTotalPreorder(minimum, latest, client);
      }
    } else {
      // a client that has the latest version
      assert !GetVersionInfo(latest, minimum, latest, forceUpdate).available;
      assert GetVersionInfo(latest, minimum, latest, forceUpdate).required;
    }
  }

  // ---------- Test builds against releases ----------

  /** A test build with a commit is older than every plain release, both ways round. */
  lemma {:induction false} TestBuildIsOlder(test: string, release: string)
    requires Plain(release)
    requires var t := TrimPrefix(test, "v");
             Contains(t, "-test.") && !Contains(t, "-stable.") && !IsDev(t) && ExtractCommitHash(t) != ""
    ensures Compare(test, release) == -1 && Compare(release, test) == 1
  {
    NoHash(TrimPrefix(release, "v"));
    assert "-test" + "." == "-test.";
    ContainsShorter(TrimPrefix(test, "v"), "-test", ".");
  }
}
