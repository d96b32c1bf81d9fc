// Amounts written out with an asset's precision, and read back.
// Source: libraries/chain/asset_object.cpp:93-160.
module AmountStrings {
  import opened Options
  import opened Arithmetic
  import opened Config

  const MAX_INT64: nat := 9223372036854775807
  const MAX_PRECISION: nat := 18

  // ---------- decimal digits ----------

  function DigitChar(d: nat): char
    requires d < 10
  {
    '0' + d as char
  }

  predicate IsDigit(c: char) {
    '0' <= c <= '9'
  }

  function DigitValue(c: char): nat
    requires IsDigit(c)
  {
    (c - '0') as nat
  }

  function Decimal(n: nat): (r: string)
    ensures |r| > 0 && forall c <- r :: IsDigit(c)
  {
    (if n < 10 then "" else Decimal(n / 10)) + [DigitChar(n % 10)]
  }

  function Value(s: string): nat
    requires forall c <- s :: IsDigit(c)
  {
    if s == "" then 0 else Value(s[..|s| - 1]) * 10 + DigitValue(s[|s| - 1])
  }

  lemma {:induction false} DecimalValue(n: nat)
    ensures Value(Decimal(n)) == n
  {
    var s := Decimal(n);
    if n >= 10 {
      DecimalValue(n / 10);
      assert s[..|s| - 1] == Decimal(n / 10);
    } else {
      assert s[..|s| - 1] == "";
    }
  }

  function Power(k: nat): (r: nat)
    ensures r > 0
  {
    if k == 0 then 1 else 10 * Power(k - 1)
  }

  lemma ShiftLeft(a: nat, power: nat, v: nat, d: nat)
    ensures (a * power + v) * 10 + d == a * (10 * power) + (v * 10 + d)
  {
  }

  lemma {:induction false} ValueAppend(s: string, t: string)
    requires (forall c <- s :: IsDigit(c)) && (forall c <- t :: IsDigit(c))
    ensures forall c <- s + t :: IsDigit(c)
    ensures Value(s + t) == Value(s) * Power(|t|) + Value(t)
    decreases |t|
  {
    if t == "" {
      assert s + t == s;
    } else {
      var u := t[..|t| - 1];
      assert (s + t)[..|s + t| - 1] == s + u;
      ValueAppend(s, u);
      ShiftLeft(Value(s), Power(|u|), Value(u), DigitValue(t[|t| - 1]));
    }
  }

  // A one followed by p digits.
  lemma {:induction false} DecimalOfPower(p: nat, d: nat)
    requires d < Power(p)
    ensures var s := Decimal(Power(p) + d); |s| == p + 1 && s[0] == '1'
  {
    var n := Power(p) + d;
    if p > 0 {
      assert d / 10 < Power(p - 1);
      assert n / 10 == Power(p - 1) + d / 10;
      DecimalOfPower(p - 1, d / 10);
    }
  }

  // Dropping the leading one leaves the zero-padded digits of d.
  lemma PaddedDigits(p: nat, d: nat)
    requires d < Power(p)
    ensures var s := Decimal(Power(p) + d);
            |s| == p + 1 && (forall c <- s[1..] :: IsDigit(c)) && Value(s[1..]) == d
  {
    hide Decimal, Value, Power;
    var s := Decimal(Power(p) + d);
    DecimalOfPower(p, d);
    DecimalValue(Power(p) + d);
    var one := [s[0]];
    assert s == one + s[1..];
    OneIsOne();
    ValueAppend(one, s[1..]);
  }

  lemma OneIsOne()
    ensures Value("1") == 1
  {
    assert "1"[..0] == "";
  }

  // ---------- writing ----------

  function Whole(amount: nat, scale: nat): nat
    requires scale > 0
  {
    amount / scale
  }

  function Decimals(amount: nat, scale: nat): nat
    requires scale > 0
  {
    amount % scale
  }

  function Joined(whole: nat, decimals: nat, scale: nat): string {
    Decimal(whole) + if decimals == 0 then "" else "." + Decimal(scale + decimals)[1..]
  }

  function Written(amount: nat, precision: nat): string {
    Joined(Whole(amount, Power(precision)), Decimals(amount, Power(precision)), Power(precision))
  }

  method AmountToString(amount: nat, precision: nat) returns (s: string)
    requires precision <= MAX_PRECISION
    ensures s == Written(amount, precision)
  {
    var scale := 1;
    for i := 0 to precision
      invariant scale == Power(i)
    {
      scale := scale * 10;
    }
    s := Decimal(Whole(amount, scale));
    var decimals := Decimals(amount, scale);
    if decimals != 0 {
      s := s + "." + Decimal(scale + decimals)[1..];
    }
  }

  // ---------- reading ----------

  function DigitsPrefix(s: string): (r: nat)
    ensures r <= |s| && forall c <- s[..r] :: IsDigit(c)
  {
    if s == "" || !IsDigit(s[0]) then 0
    else
      var r := 1 + DigitsPrefix(s[1..]);
      assert s[..r] == [s[0]] + s[1..][..r - 1];
      r
  }

  // The library's conversion: an optional sign, then digits up to the first other character.
  function ToInteger(s: string): Option<int> {
    var negative := s != "" && s[0] == '-';
    var t := if negative then s[1..] else s;
    var n := DigitsPrefix(t);
    if n == 0 || Value(t[..n]) > MAX_INT64 then None
    else Some(if negative then -(Value(t[..n]) as int) else Value(t[..n]))
  }

  lemma {:induction false} AllDigitsPrefix(s: string)
    requires forall c <- s :: IsDigit(c)
    ensures DigitsPrefix(s) == |s|
  {
    if s != "" {
      assert forall c <- s[1..] :: c in s;
      AllDigitsPrefix(s[1..]);
    }
  }

  lemma ToIntegerOfDigits(s: string)
    requires s != "" && (forall c <- s :: IsDigit(c)) && Value(s) <= MAX_INT64
    ensures ToInteger(s) == Some(Value(s) as int)
  {
    AllDigitsPrefix(s);
    assert IsDigit(s[0]);
    assert s[..|s|] == s;
  }

  // Which characters were seen; None if there is one too many or one that does not belong.
  function Scan(s: string): Option<(bool, bool)> {
    if s == "" then Some((false, false))
    else
      match Scan(s[..|s| - 1])
      case None => None
      case Some(seen) =>
        var c := s[|s| - 1];
        if IsDigit(c) then Some(seen)
        else if c == '-' && !seen.0 then Some((true, seen.1))
        else if c == '.' && !seen.1 then Some((seen.0, true))
        else None
  }

  function Find(s: string, c: char): (r: nat)
    ensures r <= |s| && (forall i :: 0 <= i < r ==> s[i] != c) && (r < |s| ==> s[r] == c)
  {
    if s == "" then 0 else if s[0] == c then 0 else 1 + Find(s[1..], c)
  }

  function Padded(s: string, size: nat): (r: string)
    requires |s| <= size
    ensures |r| == size
    decreases size - |s|
  {
    if |s| == size then s else Padded(s + "0", size)
  }

  // Looks at every character; false stands for the exception.
  method ScanCharacters(s: string) returns (ok: bool, negative: bool, point: bool)
    ensures ok <==> Scan(s).Some?
    ensures ok ==> Scan(s) == Some((negative, point))
  {
    negative, point := false, false;
    for i := 0 to |s|
      invariant Scan(s[..i]) == Some((negative, point))
    {
      var c := s[i];
      assert s[..i + 1][..i] == s[..i];
      if !IsDigit(c) {
        if c == '-' && !negative {
          negative := true;
        } else if c == '.' && !point {
          point := true;
        } else {
          ScanStops(s, i + 1);
          return false, negative, point;
        }
      }
    }
    assert s[..|s|] == s;
    ok := true;
  }

  // Zeroes are added up to the precision.
  method PadRight(s: string, size: nat) returns (r: string)
    requires |s| <= size
    ensures r == Padded(s, size)
  {
    r := s;
    while |r| < size
      invariant |r| <= size && Padded(r, size) == Padded(s, size)
    {
      r := r + "0";
    }
  }

  // None stands for any exception.
  method AmountFromString(s: string, precision: nat) returns (r: Option<int>)
    ensures precision <= MAX_PRECISION ==> r == Read(s, precision)
    ensures precision > MAX_PRECISION ==> r == None
  {
    hide Scan, ToInteger, Power, Padded, Find, LeftOf;
    var ok, negative, point := ScanCharacters(s);
    if !ok || precision > MAX_PRECISION {
      return None;
    }
    var satoshis := 0;
    var lhs := LeftOf(s, negative);
    if lhs != "" {
      match ToInteger(lhs) {
        case None =>
          return None;
        case Some(x) =>
          satoshis := x * Power(precision);
      }
      if satoshis > MAX_INT64 || satoshis < -(MAX_INT64 as int) {
        return None;
      }
    }
    if point {
      FoundPoint(s);
      var rhs := s[Find(s, '.') + 1..];
      if |rhs| > precision {
        return None;
      }
      rhs := PadRight(rhs, precision);
      if rhs != "" {
        match ToInteger(rhs) {
          case None =>
            return None;
          case Some(x) =>
            satoshis := satoshis + x;
        }
      }
    }
    if satoshis > MAX_SHARE_SUPPLY {
      return None;
    }
    r := Some(if negative then -satoshis else satoshis);
  }

  // What stands left of the point: from the second character on if there is a sign anywhere, up to as many
  // characters as precede the point.
  function LeftOf(s: string, negative: bool): string {
    var start := if negative then 1 else 0;
    if |s| < start then "" else s[start..Least(|s|, start + Find(s, '.'))]
  }

  function Read(s: string, precision: nat): Option<int> {
    match Scan(s)
    case None => None
    case Some(seen) =>
      var lhs := LeftOf(s, seen.0);
      var whole := if lhs == "" then Some(0) else ToInteger(lhs);
      if whole == None || whole.value * Power(precision) > MAX_INT64
        || whole.value * Power(precision) < -(MAX_INT64 as int) then None
      else
        var at := Find(s, '.');
        var rhs := if seen.1 && at < |s| then s[at + 1..] else "";
        if |rhs| > precision then None
        else
          var padded := if seen.1 then Padded(rhs, precision) else "";
          var fraction := if padded == "" then Some(0) else ToInteger(padded);
          if fraction == None || whole.value * Power(precision) + fraction.value > MAX_SHARE_SUPPLY then None
          else
            var all := whole.value * Power(precision) + fraction.value;
            Some(if seen.0 then -all else all)
  }

  lemma {:induction false} ScanStops(s: string, i: nat)
    requires i <= |s| && Scan(s[..i]) == None
    ensures Scan(s) == None
    decreases |s| - i
  {
    if i == |s| {
      assert s[..i] == s;
    } else {
      assert s[..i + 1][..i] == s[..i];
      ScanStops(s, i + 1);
    }
  }

  lemma {:induction false} FoundPoint(s: string)
    requires Scan(s).Some? && Scan(s).value.1
    ensures Find(s, '.') < |s|
  {
    PointIn(s);
  }

  lemma {:induction false} PointIn(s: string)
    requires Scan(s).Some?
    ensures Scan(s).value.1 <==> '.' in s
    ensures Scan(s).value.0 <==> '-' in s
  {
    if s != "" {
      PointIn(s[..|s| - 1]);
      assert s == s[..|s| - 1] + [s[|s| - 1]];
    }
  }

  // What was written: the whole units and, if there are any, the rest, in as many digits as the precision says.
  lemma WrittenMeans(amount: nat, precision: nat) returns (whole: string, rest: string)
    ensures Written(amount, precision) == whole + if rest == "" then "" else "." + rest
    ensures whole != "" && (forall c <- whole :: IsDigit(c)) && (forall c <- rest :: IsDigit(c))
    ensures Value(whole) * Power(precision) + Value(rest) == amount && Value(rest) < Power(precision)
    ensures if amount % Power(precision) == 0 then rest == "" else |rest| == precision
  {
    hide Decimal, Power;
    var scale := Power(precision);
    WholeAtMost(amount, scale);
    var d := Decimals(amount, scale);
    whole := Decimal(Whole(amount, scale));
    DecimalValue(Whole(amount, scale));
    rest := "";
    if d > 0 {
      PaddedDigits(precision, d);
      PrecisionPositive(precision, d);
      rest := Decimal(scale + d)[1..];
    }
  }

  // ---------- there and back ----------

  lemma {:induction false} ScanDigits(s: string)
    requires forall c <- s :: IsDigit(c)
    ensures Scan(s) == Some((false, false))
  {
    if s != "" {
      assert forall c <- s[..|s| - 1] :: c in s;
      ScanDigits(s[..|s| - 1]);
    }
  }

  lemma {:induction false} ScanPoint(s: string, t: string)
    requires (forall c <- s :: IsDigit(c)) && (forall c <- t :: IsDigit(c))
    ensures Scan(s + "." + t) == Some((false, true))
  {
    var u := s + "." + t;
    if t == "" {
      assert u[..|u| - 1] == s;
      ScanDigits(s);
    } else {
      assert u[..|u| - 1] == s + "." + t[..|t| - 1];
      ScanPoint(s, t[..|t| - 1]);
    }
  }

  // Reading what was written gives the amount back, for every precision and every amount there can be.
  lemma RoundTrip(amount: nat, precision: nat)
    requires amount <= MAX_SHARE_SUPPLY && precision <= MAX_PRECISION
    ensures Read(Written(amount, precision), precision) == Some(amount as int)
  {
    hide Decimal, Power, Whole, Decimals, Read, Joined;
    var scale := Power(precision);
    WholeAtMost(amount, scale);
    if Decimals(amount, scale) == 0 {
      WholeThereAndBack(Whole(amount, scale), precision);
    } else {
      BothThereAndBack(Whole(amount, scale), Decimals(amount, scale), precision);
    }
  }

  lemma WholeThereAndBack(whole: nat, precision: nat)
    requires whole <= MAX_SHARE_SUPPLY && whole * Power(precision) <= MAX_SHARE_SUPPLY
    ensures Read(Joined(whole, 0, Power(precision)), precision) == Some(whole * Power(precision))
  {
    hide Decimal, Value, Scan, ToInteger, Power, Find, LeftOf, Padded, Read;
    var s := Decimal(whole);
    DecimalValue(whole);
    ToIntegerOfDigits(s);
    assert Joined(whole, 0, Power(precision)) == s;
    ScanDigits(s);
    WholeIsLeft(s);
    ReadWhole(s, precision, whole);
  }

  lemma BothThereAndBack(whole: nat, d: nat, precision: nat)
    requires whole <= MAX_SHARE_SUPPLY && 0 < d < Power(precision) && d <= MAX_SHARE_SUPPLY
    requires 0 <= whole * Power(precision) && whole * Power(precision) + d <= MAX_SHARE_SUPPLY
    ensures Read(Joined(whole, d, Power(precision)), precision) == Some(whole * Power(precision) + d)
  {
    hide Decimal, Value, Scan, ToInteger, Power, Find, LeftOf, Padded, Read;
    var lhs := Decimal(whole);
    DecimalValue(whole);
    ToIntegerOfDigits(lhs);
    PaddedDigits(precision, d);
    PrecisionPositive(precision, d);
    var rhs := Decimal(Power(precision) + d)[1..];
    var s := lhs + "." + rhs;
    assert Joined(whole, d, Power(precision)) == s;
    ScanPoint(lhs, rhs);
    PointAt(lhs, rhs);
    LeftOfPoint(lhs, rhs);
    FullAlready(rhs);
    ToIntegerOfDigits(rhs);
    ReadBoth(s, precision, whole, |lhs|, d);
  }

  lemma PrecisionPositive(precision: nat, d: nat)
    requires 0 < d < Power(precision)
    ensures precision > 0
  {
  }

  lemma ReadWhole(s: string, precision: nat, whole: nat)
    requires Scan(s) == Some((false, false)) && LeftOf(s, false) == s && s != "" && ToInteger(s) == Some(whole as int)
    requires whole * Power(precision) <= MAX_SHARE_SUPPLY
    ensures Read(s, precision) == Some(whole * Power(precision))
  {
    hide Scan, ToInteger, Power, Find, LeftOf, Padded;
  }

  lemma ReadBoth(s: string, precision: nat, whole: nat, at: nat, d: nat)
    requires Scan(s) == Some((false, true)) && LeftOf(s, false) != ""
             && ToInteger(LeftOf(s, false)) == Some(whole as int)
    requires at < |s| && Find(s, '.') == at && |s| - at - 1 == precision > 0
    requires Padded(s[at + 1..], precision) == s[at + 1..] && ToInteger(s[at + 1..]) == Some(d as int)
    requires 0 <= whole * Power(precision) && whole * Power(precision) + d <= MAX_SHARE_SUPPLY
    ensures Read(s, precision) == Some(whole * Power(precision) + d)
  {
    hide Scan, ToInteger, Power, Find, LeftOf, Padded;
  }

  lemma FullAlready(s: string)
    ensures Padded(s, |s|) == s
  {
  }

  lemma WholeIsLeft(s: string)
    requires s != "" && forall c <- s :: IsDigit(c)
    ensures LeftOf(s, false) == s
  {
    hide Find;
    NoPoint(s);
  }

  lemma LeftOfPoint(lhs: string, rhs: string)
    requires forall c <- lhs :: IsDigit(c)
    ensures var s := lhs + "." + rhs; LeftOf(s, false) == lhs && |lhs| < |s| && s[|lhs| + 1..] == rhs
  {
    hide Find;
    PointAt(lhs, rhs);
  }

  lemma WholeAtMost(amount: nat, scale: nat)
    requires scale > 0
    ensures Whole(amount, scale) <= amount && Whole(amount, scale) * scale + Decimals(amount, scale) == amount
    ensures Decimals(amount, scale) < scale && Decimals(amount, scale) <= amount
            && Whole(amount, scale) * scale <= amount
  {
    assert amount == scale * (amount / scale) + amount % scale;
    MulMonotone(1, scale, amount / scale);
  }

  lemma {:induction false} NoPoint(s: string)
    requires forall c <- s :: IsDigit(c)
    ensures Find(s, '.') == |s|
  {
    if s != "" {
      assert IsDigit(s[0]) && forall c <- s[1..] :: c in s;
      NoPoint(s[1..]);
    }
  }

  lemma {:induction false} PointAt(lhs: string, rhs: string)
    requires forall c <- lhs :: IsDigit(c)
    ensures Find(lhs + "." + rhs, '.') == |lhs|
  {
    var s := lhs + "." + rhs;
    if lhs != "" {
      PointAt(lhs[1..], rhs);
      assert s[1..] == lhs[1..] + "." + rhs;
      assert IsDigit(lhs[0]);
    }
  }

  // ---------- other decimals ----------

  lemma {:induction false} PaddedDigitsOf(s: string, size: nat)
    requires |s| <= size && forall c <- s :: IsDigit(c)
    ensures forall c <- Padded(s, size) :: IsDigit(c)
    ensures Value(Padded(s, size)) == Value(s) * Power(size - |s|)
    decreases size - |s|
  {
    if |s| < size {
      assert (s + "0")[..|s|] == s;
      PaddedDigitsOf(s + "0", size);
      assert Value(s + "0") == Value(s) * 10;
      TenTimes(Value(s), Power(size - |s| - 1));
    }
  }

  lemma TenTimes(v: nat, power: nat)
    ensures v * 10 * power == v * (10 * power)
  {
  }

  // Any whole number of units with at most as many digits after the point as the precision is read as what it
  // says, missing digits being zeroes, and a minus sign in front makes it negative.
  lemma DecimalIsRead(lhs: string, rhs: string, precision: nat, negative: bool)
    requires lhs != "" && (forall c <- lhs :: IsDigit(c)) && (forall c <- rhs :: IsDigit(c))
    requires 0 < precision <= MAX_PRECISION && |rhs| <= precision
    requires Value(lhs) * Power(precision) + Value(rhs) * Power(precision - |rhs|) <= MAX_SHARE_SUPPLY
    ensures var n := Value(lhs) * Power(precision) + Value(rhs) * Power(precision - |rhs|);
            Read((if negative then "-" else "") + lhs + "." + rhs, precision)
            == Some(if negative then -(n as int) else n)
  {
    hide Value, Scan, ToInteger, Power, Find, LeftOf, Padded, Read;
    var s := (if negative then "-" else "") + lhs + "." + rhs;
    var fraction := Padded(rhs, precision);
    PaddedDigitsOf(rhs, precision);
    MulMonotone(1, Power(precision), Value(lhs));
    ToIntegerOfDigits(fraction);
    SignedScan(lhs, rhs, negative);
    SignedPoint(lhs, rhs, negative);
    SignedLeft(lhs, rhs, negative);
    ReadSigned(s, precision, negative, Value(lhs), |lhs| + if negative then 1 else 0,
               Value(rhs) * Power(precision - |rhs|));
  }

  lemma {:induction false} SignedScan(lhs: string, rhs: string, negative: bool)
    requires (forall c <- lhs :: IsDigit(c)) && (forall c <- rhs :: IsDigit(c))
    ensures Scan((if negative then "-" else "") + lhs + "." + rhs) == Some((negative, true))
    decreases |lhs| + |rhs|
  {
    var sign := if negative then "-" else "";
    var u := sign + lhs + "." + rhs;
    if rhs == "" {
      assert u[..|u| - 1] == sign + lhs;
      SignThenDigits(lhs, negative);
    } else {
      assert u[..|u| - 1] == sign + lhs + "." + rhs[..|rhs| - 1];
      SignedScan(lhs, rhs[..|rhs| - 1], negative);
    }
  }

  lemma {:induction false} SignThenDigits(s: string, negative: bool)
    requires forall c <- s :: IsDigit(c)
    ensures Scan((if negative then "-" else "") + s) == Some((negative, false))
  {
    var u := (if negative then "-" else "") + s;
    if s != "" {
      assert u[..|u| - 1] == (if negative then "-" else "") + s[..|s| - 1];
      SignThenDigits(s[..|s| - 1], negative);
    } else if negative {
      assert u[..0] == "";
    }
  }

  lemma SignedPoint(lhs: string, rhs: string, negative: bool)
    requires forall c <- lhs :: IsDigit(c)
    ensures Find((if negative then "-" else "") + lhs + "." + rhs, '.') == |lhs| + if negative then 1 else 0
  {
    PointAt(lhs, rhs);
    if negative {
      assert ("-" + lhs + "." + rhs)[1..] == lhs + "." + rhs;
    } else {
      assert "" + lhs + "." + rhs == lhs + "." + rhs;
    }
  }

  // With a sign in front the part left of the point ends in the point, where the conversion stops.
  lemma SignedLeft(lhs: string, rhs: string, negative: bool)
    requires lhs != "" && (forall c <- lhs :: IsDigit(c)) && Value(lhs) <= MAX_INT64
    ensures var left := LeftOf((if negative then "-" else "") + lhs + "." + rhs, negative);
            left != "" && ToInteger(left) == Some(Value(lhs) as int)
  {
    hide Find, Value, DigitsPrefix;
    SignedPoint(lhs, rhs, negative);
    var left := LeftOf((if negative then "-" else "") + lhs + "." + rhs, negative);
    if negative {
      assert left == lhs + ".";
      PrefixUpToPoint(lhs);
      assert left[..|lhs|] == lhs;
    } else {
      assert left == lhs;
      AllDigitsPrefix(lhs);
      assert left[..|lhs|] == lhs;
    }
    assert IsDigit(lhs[0]);
  }

  lemma {:induction false} PrefixUpToPoint(s: string)
    requires forall c <- s :: IsDigit(c)
    ensures DigitsPrefix(s + ".") == |s|
  {
    if s != "" {
      assert (s + ".")[1..] == s[1..] + ".";
      assert IsDigit(s[0]) && forall c <- s[1..] :: c in s;
      PrefixUpToPoint(s[1..]);
    }
  }

  lemma ReadSigned(s: string, precision: nat, negative: bool, whole: nat, at: nat, d: nat)
    requires Scan(s) == Some((negative, true)) && LeftOf(s, negative) != ""
             && ToInteger(LeftOf(s, negative)) == Some(whole as int)
    requires at < |s| && Find(s, '.') == at && |s| - at - 1 <= precision && precision > 0
    requires ToInteger(Padded(s[at + 1..], precision)) == Some(d as int)
    requires 0 <= whole * Power(precision) && whole * Power(precision) + d <= MAX_SHARE_SUPPLY
    ensures var n := whole * Power(precision) + d; Read(s, precision) == Some(if negative then -(n as int) else n)
  {
    hide Scan, ToInteger, Power, Find, LeftOf, Padded;
  }
}
