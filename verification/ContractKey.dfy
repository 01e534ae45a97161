/** Contract identity keys: `symbol-secType-exchange-currency[:conId]` printed and parsed. */
module ContractKey {
  import opened Options
  import opened Text

  datatype Contract = Contract(symbol: string, secType: string, exchange: string, currency: string, conId: Option<int>)

  function Decimal(n: int): string {
    if n < 0 then "-" + Digits(0 - n) else Digits(n)
  }

  /** A missing id and id 0 print nothing. */
  function IdentityKey(c: Contract): string {
    c.symbol + "-" + c.secType + "-" + c.exchange + "-" + c.currency
    + if c.conId.GetOr(0) != 0 then ":" + Decimal(c.conId.value) else ""
  }

  // ---- Numbers ----

  predicate IsDigit(c: char) {
    '0' <= c <= '9'
  }

  function ParseDigits(t: string): Option<nat> {
    if t == "" || !IsDigit(t[|t| - 1]) then None
    else
      var last := (t[|t| - 1] - '0') as nat;
      if |t| == 1 then Some(last)
      else
        var front := ParseDigits(t[..|t| - 1]);
        if front.None? then None else Some(10 * front.value + last)
  }

  /** An optional sign and digits, with white space around it. */
  function ParseInt(raw: string): Option<int> {
    var t := Strip(raw);
    if t != "" && t[0] == '-' then
      var n := ParseDigits(t[1..]);
      if n.None? then None else Some(0 - n.value)
    else
      var n := ParseDigits(if t != "" && t[0] == '+' then t[1..] else t);
      if n.None? then None else Some(n.value)
  }

  lemma {:induction false} DigitsParse(n: nat)
    ensures ParseDigits(Digits(n)) == Some(n)
    ensures forall i :: 0 <= i < |Digits(n)| ==> IsDigit(Digits(n)[i])
    ensures Digits(n) != ""
  {
    if n < 10 {
      assert (('0' + n as char) - '0') as nat == n;
    } else {
      DigitsParse(n / 10);
      var last := '0' + (n % 10) as char;
      var t := Digits(n);
      assert t == Digits(n / 10) + [last];
      assert t[..|t| - 1] == Digits(n / 10) && t[|t| - 1] == last;
      assert (last - '0') as nat == n % 10;
    }
  }

  lemma DecimalParses(n: int)
    ensures ParseInt(Decimal(n)) == Some(n)
    ensures ':' !in Decimal(n) && Decimal(n) != "" && !IsSpace(Decimal(n)[|Decimal(n)| - 1])
  {
    hide Digits, ParseDigits;
    DigitsParse(if n < 0 then 0 - n else n);
    var t := Decimal(n);
    assert !IsSpace(t[0]) && !IsSpace(t[|t| - 1]);
    SolidIsStripped(t);
    assert n < 0 ==> t[1..] == Digits(0 - n);
  }

  lemma SolidIsStripped(t: string)
    requires t == "" || (!IsSpace(t[0]) && !IsSpace(t[|t| - 1]))
    ensures Strip(t) == t
  {}

  // ---- Splitting ----

  function LastColon(t: string): (r: Option<nat>)
    ensures r.Some? ==> r.value < |t| && t[r.value] == ':' && forall i :: r.value < i < |t| ==> t[i] != ':'
    ensures r.None? ==> ':' !in t
  {
    if t == "" then None
    else if t[|t| - 1] == ':' then Some(|t| - 1)
    else LastColon(t[..|t| - 1])
  }

  function SplitDash(t: string): (parts: seq<string>)
    ensures parts != []
  {
    if t == "" then [""]
    else
      var rest := SplitDash(t[1..]);
      if t[0] == '-' then [""] + rest else [[t[0]] + rest[0]] + rest[1..]
  }

  function FromParts(base: string, conId: Option<int>): Contract {
    var parts := SplitDash(base);
    if |parts| < 4 then Contract(parts[0], "STK", "SMART", "USD", conId)
    else Contract(parts[0], parts[1], parts[2], parts[3], conId)
  }

  function ParseIbkrContract(raw: string): Contract {
    var base := Strip(raw);
    var colon := LastColon(base);
    if colon.None? then FromParts(base, None)
    else FromParts(base[..colon.value], ParseInt(base[colon.value + 1..]))
  }

  lemma {:induction false} SplitOnce(a: string, b: string)
    requires '-' !in a
    ensures SplitDash(a + "-" + b) == [a] + SplitDash(b)
  {
    var t := a + "-" + b;
    if a == "" {
      assert t[1..] == b;
    } else {
      SplitOnce(a[1..], b);
      assert t[1..] == a[1..] + "-" + b;
      assert ([a[1..]] + SplitDash(b))[1..] == SplitDash(b);
      assert [a[0]] + a[1..] == a;
    }
  }

  lemma {:induction false} SplitNone(a: string)
    requires '-' !in a
    ensures SplitDash(a) == [a]
  {
    if a != "" {
      SplitNone(a[1..]);
      assert [a[0]] + a[1..] == a;
    }
  }

  predicate FieldOk(t: string) {
    '-' !in t && ':' !in t && (t == "" || (!IsSpace(t[0]) && !IsSpace(t[|t| - 1])))
  }

  predicate FieldsOk(c: Contract) {
    FieldOk(c.symbol) && FieldOk(c.secType) && FieldOk(c.exchange) && FieldOk(c.currency)
  }

  function Base(c: Contract): string {
    c.symbol + "-" + (c.secType + "-" + (c.exchange + "-" + c.currency))
  }

  lemma BaseSplits(c: Contract)
    requires FieldsOk(c)
    ensures SplitDash(Base(c)) == [c.symbol, c.secType, c.exchange, c.currency]
    ensures ':' !in Base(c)
  {
    hide SplitDash;
    SplitOnce(c.symbol, c.secType + "-" + (c.exchange + "-" + c.currency));
    SplitOnce(c.secType, c.exchange + "-" + c.currency);
    SplitOnce(c.exchange, c.currency);
    SplitNone(c.currency);
  }

  lemma {:induction false} ColonSplits(base: string, tail: string)
    requires ':' !in tail
    ensures LastColon(base + ":" + tail) == Some(|base|)
  {
    var t := base + ":" + tail;
    if tail != "" {
      var n := |tail| - 1;
      assert t[..|t| - 1] == base + ":" + tail[..n] && t[|t| - 1] == tail[n];
      ColonSplits(base, tail[..n]);
    }
  }

  lemma KeyIsBase(c: Contract)
    ensures IdentityKey(c) == if c.conId.GetOr(0) != 0 then Base(c) + ":" + Decimal(c.conId.value) else Base(c)
  {
    assert c.symbol + "-" + c.secType + "-" + c.exchange + "-" + c.currency == Base(c);
    assert Base(c) + "" == Base(c);
  }

  lemma BaseEnds(c: Contract)
    requires FieldsOk(c)
    ensures Base(c) != "" && !IsSpace(Base(c)[0]) && !IsSpace(Base(c)[|Base(c)| - 1])
  {
    var t := Base(c);
    assert c.symbol != "" ==> t[0] == c.symbol[0];
    assert c.symbol == "" ==> t[0] == '-';
    assert c.currency != "" ==> t[|t| - 1] == c.currency[|c.currency| - 1];
    assert c.currency == "" ==> t[|t| - 1] == '-';
  }

  /** Parsing a printed key gives back every field, exactly when the contract id is not
      the one id that does not print. */
  lemma KeyRoundTripIff(c: Contract)
    requires FieldsOk(c)
    ensures ParseIbkrContract(IdentityKey(c)) == c <==> c.conId != Some(0)
  {
    hide SplitDash, LastColon, Strip, ParseInt, Decimal, Base, FieldOk, IdentityKey;
    var key := IdentityKey(c);
    KeyIsBase(c);
    BaseSplits(c);
    BaseEnds(c);
    if c.conId.GetOr(0) != 0 {
      var number := Decimal(c.conId.value);
      DecimalParses(c.conId.value);
      assert key[0] == Base(c)[0] && key[|key| - 1] == number[|number| - 1];
      SolidIsStripped(key);
      ColonSplits(Base(c), number);
      assert key[..|Base(c)|] == Base(c) && key[|Base(c)| + 1..] == number;
    } else {
      SolidIsStripped(key);
      NoColon(key);
    }
  }

  lemma NoColon(t: string)
    requires ':' !in t
    ensures LastColon(t) == None
  {}

  // ---- Parsing any text ----

  function Joined(parts: seq<string>): string
    requires parts != []
  {
    if |parts| == 1 then parts[0] else parts[0] + "-" + Joined(parts[1..])
  }

  predicate NoDashes(parts: seq<string>) {
    forall i :: 0 <= i < |parts| ==> '-' !in parts[i]
  }

  /** Splitting undoes joining. */
  lemma {:induction false} SplitJoined(parts: seq<string>)
    requires parts != [] && NoDashes(parts)
    ensures SplitDash(Joined(parts)) == parts
  {
    hide SplitDash;
    if |parts| == 1 {
      SplitNone(parts[0]);
    } else {
      SplitJoined(parts[1..]);
      SplitOnce(parts[0], Joined(parts[1..]));
    }
  }

  /** And joining undoes splitting, so every text is joined of its parts. */
  lemma {:induction false} JoinSplit(t: string)
    ensures Joined(SplitDash(t)) == t && NoDashes(SplitDash(t))
  {
    if t != "" {
      JoinSplit(t[1..]);
      var rest := SplitDash(t[1..]);
      if t[0] == '-' {
        assert ([""] + rest)[1..] == rest;
      } else {
        assert ([[t[0]] + rest[0]] + rest[1..])[1..] == rest[1..];
      }
      assert t == [t[0]] + t[1..];
    }
  }

  lemma FieldsOf(parts: seq<string>, conId: Option<int>)
    requires parts != [] && NoDashes(parts)
    ensures FromParts(Joined(parts), conId)
         == if |parts| < 4 then Contract(parts[0], "STK", "SMART", "USD", conId)
            else Contract(parts[0], parts[1], parts[2], parts[3], conId)
  {
    hide SplitDash, Joined;
    SplitJoined(parts);
  }

  lemma ParseAtColon(raw: string, base: string, number: string)
    requires Strip(raw) == base + ":" + number && ':' !in number
    ensures ParseIbkrContract(raw) == FromParts(base, ParseInt(number))
  {
    hide Strip, ParseInt, LastColon, FromParts;
    ColonSplits(base, number);
    var t := Strip(raw);
    assert t[..|base|] == base && t[|base| + 1..] == number;
  }

  lemma ParseWithoutColon(raw: string)
    requires ':' !in Strip(raw)
    ensures ParseIbkrContract(raw) == FromParts(Strip(raw), None)
  {
    hide Strip, LastColon, FromParts;
    NoColon(Strip(raw));
  }

  /** What is read of any key: the id behind the last colon if it is a number, the four
      fields in front of it, or a symbol with the usual rest if there are fewer. */
  lemma ParseOutcome(raw: string, parts: seq<string>, number: Option<string>)
    requires parts != [] && NoDashes(parts)
    requires if number.None? then Strip(raw) == Joined(parts) && ':' !in Strip(raw)
             else Strip(raw) == Joined(parts) + ":" + number.value && ':' !in number.value
    ensures
      var conId := if number.Some? then ParseInt(number.value) else None;
      ParseIbkrContract(raw)
      == if |parts| < 4 then Contract(parts[0], "STK", "SMART", "USD", conId)
         else Contract(parts[0], parts[1], parts[2], parts[3], conId)
  {
    hide Strip, ParseInt, Joined, FromParts, ParseIbkrContract;
    FieldsOf(parts, if number.Some? then ParseInt(number.value) else None);
    if number.Some? {
      ParseAtColon(raw, Joined(parts), number.value);
    } else {
      ParseWithoutColon(raw);
    }
  }

  predicate AllDigits(t: string) {
    t != "" && forall i :: 0 <= i < |t| ==> IsDigit(t[i])
  }

  lemma {:induction false} DigitsIff(t: string)
    ensures ParseDigits(t).Some? <==> AllDigits(t)
  {
    if t != "" && |t| != 1 {
      DigitsIff(t[..|t| - 1]);
    }
  }

  /** A number is digits behind at most one sign; leading zeros do not count. */
  lemma NumberIff(raw: string)
    ensures var t := Strip(raw);
      ParseInt(raw).Some? <==> AllDigits(t) || (t != "" && t[0] in {'+', '-'} && AllDigits(t[1..]))
  {
    hide Strip, ParseDigits;
    var t := Strip(raw);
    DigitsIff(t);
    if t != "" {
      DigitsIff(t[1..]);
    }
  }

  lemma {:induction false} LeadingZero(t: string)
    requires AllDigits(t)
    ensures ParseDigits("0" + t) == ParseDigits(t)
  {
    var padded := "0" + t;
    if |t| == 1 {
      assert padded[..1] == "0" && padded[1] == t[0];
    } else {
      LeadingZero(t[..|t| - 1]);
      assert padded[..|padded| - 1] == "0" + t[..|t| - 1];
    }
  }
}
