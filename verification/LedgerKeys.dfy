/**
 The string keys under which the usage service files its records: one key for one day, user and tunnel.
 */
module LedgerKeys {
  import opened Decimals

  newtype uint32 = n: int | 0 <= n < 0x1_0000_0000

  /** Write a number into a ten-byte buffer from its end; ten bytes are always enough. */
  method FmtUint32(v: uint32) returns (s: string)
    ensures s == Numeral(v as nat) && 1 <= |s| <= 10
    ensures Value(s) == v as nat
  {
    NumeralDenotes(v as nat);
    NumeralLength(v as nat);
    if v == 0 {
      return "0";
    }
    var buf := new char[10];
    var i := buf.Length;
    var rest := v;
    while rest > 0
      invariant 0 <= i <= 10
      invariant rest == 0 ==> buf[i..] == Numeral(v as nat)
      invariant rest > 0 ==> Numeral(rest as nat) + buf[i..] == Numeral(v as nat)
      decreases rest
    {
      assert |Numeral(v as nat)| == |Numeral(rest as nat)| + (10 - i);
      i := i - 1;
      ghost var written := buf[i + 1..];
      buf[i] := DigitOf((rest % 10) as nat);
      assert buf[i..] == [DigitOf((rest % 10) as nat)] + written;
      rest := rest / 10;
    }
    return buf[i..];
  }

  /** The key as the ledger writes it. */
  function Key(day: string, userID: uint32, tunnelID: uint32): string {
    day + ":" + Numeral(userID as nat) + ":" + Numeral(tunnelID as nat)
  }

  method MakeKey(day: string, userID: uint32, tunnelID: uint32) returns (k: string)
    ensures k == Key(day, userID, tunnelID)
  {
    var user := FmtUint32(userID);
    var tunnel := FmtUint32(tunnelID);
    k := day + ":" + user + ":" + tunnel;
  }

  /** A string has one last colon. */
  lemma {:induction false} LastColon(a: string, x: string, b: string, y: string)
    requires a + ":" + x == b + ":" + y && ':' !in x && ':' !in y
    ensures a == b && x == y
  {
    var s := a + ":" + x;
    assert s[|a|] == ':' && s[|b|] == ':';
    assert forall i :: |a| < i < |s| ==> s[i] == x[i - |a| - 1];
    assert forall i :: |b| < i < |s| ==> s[i] == y[i - |b| - 1];
    assert |a| == |b|;
    assert a == s[..|a|] && b == s[..|b|];
    assert x == s[|a| + 1..] && y == s[|b| + 1..];
  }

  /** Different days, users or tunnels have different keys. */
  lemma {:induction false} KeyInjective(day: string, userID: uint32, tunnelID: uint32,
                                        day': string, userID': uint32, tunnelID': uint32)
    requires Key(day, userID, tunnelID) == Key(day', userID', tunnelID')
    ensures day == day' && userID == userID' && tunnelID == tunnelID'
  {
    var user, user' := Numeral(userID as nat), Numeral(userID' as nat);
    var tunnel, tunnel' := Numeral(tunnelID as nat), Numeral(tunnelID' as nat);
    NoneInDigits(user, ':');
    NoneInDigits(user', ':');
    NoneInDigits(tunnel, ':');
    NoneInDigits(tunnel', ':');
    LastColon(day + ":" + user, tunnel, day' + ":" + user', tunnel');
    LastColon(day, user, day', user');
    NumeralInjective(userID as nat, userID' as nat);
    NumeralInjective(tunnelID as nat, tunnelID' as nat);
  }
}
