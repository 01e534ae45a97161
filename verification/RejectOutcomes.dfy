/** What scanning finds in any text, told over the text itself. */
module RejectOutcomes {
  import opened Options
  import opened Text
  import opened Segments
  import opened RejectReason

  // ---- Headers ----

  /** The word in any letter case, some white space up to `start`, and a label without
      white space up to the colon at `colon`, the first behind the label's first
      character. */
  predicate IsHeader(t: string, start: nat, colon: nat) {
    && 7 < start < colon < |t|
    && (forall i :: 0 <= i < 7 ==> t[i] in {"ACCOUNT"[i], "account"[i]})
    && (forall i :: 7 <= i < start ==> IsSpace(t[i]))
    && (forall i :: start <= i < colon ==> !IsSpace(t[i]))
    && (forall i :: start < i < colon ==> t[i] != ':')
    && t[colon] == ':'
  }

  lemma WordIff(t: string)
    ensures StartsWithWord(t) <==> 7 <= |t| && forall i :: 0 <= i < 7 ==> t[i] in {"ACCOUNT"[i], "account"[i]}
  {
    if 7 <= |t| {
      var w := t[..7];
      forall i | 0 <= i < 7 ensures UpperChar(w[i]) == WORD[i] <==> t[i] in {"ACCOUNT"[i], "account"[i]} {
        assert w[i] == t[i];
        LetterIff(t[i], i);
      }
      assert Upper(w) == WORD <==> forall i :: 0 <= i < 7 ==> UpperChar(w[i]) == WORD[i];
    }
  }

  lemma LetterIff(c: char, i: nat)
    requires i < 7
    ensures UpperChar(c) == WORD[i] <==> c in {"ACCOUNT"[i], "account"[i]}
  {}

  /** Exactly such a stretch of text is read as a header, of that label. */
  lemma HeaderIff(t: string, start: nat, colon: nat)
    ensures IsHeader(t, start, colon) ==> Header(t) == Some(Head(t[start..colon], t[colon + 1..]))
  {
    hide IsSpace, Upper, ColonAt, LStrip;
    WordIff(t);
    if IsHeader(t, start, colon) {
      hide StartsWithWord;
      var spaced := t[7..];
      var z := t[start..];
      StripsTo(spaced, start - 7);
      assert spaced[start - 7..] == z;
      forall j | 1 <= j < colon - start ensures !IsSpace(z[j]) && z[j] != ':' {
        assert z[j] == t[start + j];
      }
      ColonIsAt(z, 1, colon - start);
      assert z[..colon - start] == t[start..colon] && z[colon - start + 1..] == t[colon + 1..];
    }
  }

  lemma {:induction false} StripsTo(t: string, n: nat)
    requires n < |t| && !IsSpace(t[n]) && forall i :: 0 <= i < n ==> IsSpace(t[i])
    ensures LStrip(t) == t[n..]
  {
    hide IsSpace;
    if n > 0 {
      StripsTo(t[1..], n - 1);
    }
  }

  lemma HeaderIsSome(t: string)
    requires Header(t).Some?
    ensures exists start: nat, colon: nat :: IsHeader(t, start, colon)
  {
    hide IsSpace, Upper, ColonAt, LStrip;
    WordIff(t);
    hide StartsWithWord;
    var spaced := t[7..];
    var z := LStrip(spaced);
    var start := |t| - |z|;
    var colon := start + ColonAt(z, 1).value;
    assert forall i :: 0 <= i < |z| ==> z[i] == t[start + i];
    assert forall i :: 7 <= i < start ==> spaced[i - 7] == t[i];
    assert IsHeader(t, start, colon);
  }

  // ---- Matches ----

  ghost predicate Headed(t: string, i: nat) {
    i <= |t| && exists start: nat, colon: nat :: IsHeader(t[i..], start, colon)
  }

  lemma HeadedIff(t: string, i: nat)
    requires i <= |t|
    ensures Headed(t, i) <==> Header(t[i..]).Some?
  {
    hide Header, IsHeader;
    if Header(t[i..]).Some? {
      HeaderIsSome(t[i..]);
    }
    if Headed(t, i) {
      var start: nat, colon: nat :| IsHeader(t[i..], start, colon);
      HeaderIff(t[i..], start, colon);
    }
  }

  lemma HeadedTail(t: string)
    requires t != ""
    ensures forall i :: 1 <= i <= |t| ==> (Headed(t, i) <==> Headed(t[1..], i - 1))
  {
    assert forall i :: 1 <= i <= |t| ==> t[i..] == t[1..][i - 1..];
  }

  /** Without a header there is no match. */
  lemma {:induction false} NoMatchIff(t: string)
    ensures (forall i :: 0 <= i < |t| ==> !Headed(t, i)) <==> NextMatch(t).None?
  {
    if t != "" {
      HeadedTail(t);
      HeadedIff(t, 0);
      assert t[0..] == t;
      hide Headed, Header;
      NoMatchIff(t[1..]);
      if Header(t).None? && NextMatch(t).Some? {
        var i :| 0 <= i < |t[1..]| && Headed(t[1..], i);
        assert Headed(t, i + 1);
      }
    }
  }

  /** Otherwise the scan goes to the first one and takes its reason from behind it, without
      the white space in front, up to the first place where a reason ends. */
  lemma {:induction false} FirstMatchIs(t: string, i: nat, start: nat, colon: nat)
    requires i < |t| && (forall j :: 0 <= j < i ==> !Headed(t, j)) && IsHeader(t[i..], start, colon)
    ensures
      var body := LStrip(t[i..][colon + 1..]);
      var q := ReasonLength(body);
      NextMatch(t) == Some(Found(Match(t[i..][start..colon], body[..q]), body[q..]))
  {
    HeaderIff(t[i..], start, colon);
    if i == 0 {
      assert t[0..] == t;
    } else {
      HeadedTail(t);
      HeadedIff(t, 0);
      assert t[0..] == t && t[i..] == t[1..][i - 1..];
      hide IsHeader, Headed, Header, ReasonLength, LStrip;
      forall j | 0 <= j < i - 1 ensures !Headed(t[1..], j) {
        assert !Headed(t, j + 1);
      }
      FirstMatchIs(t[1..], i - 1, start, colon);
    }
  }

  // ---- What is collected ----

  /** Which match speaks for a label: the last with its name and a reason left once tidied. */
  ghost predicate Speaks(ms: seq<Match>, i: nat, name: string) {
    && i < |ms| && name != "" && Upper(Strip(ms[i].account)) == name && Tidy(ms[i].reason) != ""
  }

  lemma {:induction false} NobodySpeaks(ms: seq<Match>, name: string)
    requires forall i :: 0 <= i < |ms| ==> !Speaks(ms, i, name)
    ensures Sorted(Collect(ms)) && Lookup(Collect(ms), name) == None
  {
    hide Tidy, Upper, Strip, Sorted, Put, Lookup, Collect;
    if ms == [] {
      NothingCollected();
      NothingSorted();
      LookupAbsent([], name);
    } else {
      var n := |ms| - 1;
      forall i | 0 <= i < n ensures !Speaks(ms[..n], i, name) {
        assert !Speaks(ms, i, name);
      }
      NobodySpeaks(ms[..n], name);
      hide Speaks;
      CollectOneMore(ms, name);
    }
  }

  lemma {:induction false} LastSpeaks(ms: seq<Match>, i: nat, name: string)
    requires Speaks(ms, i, name) && forall j :: i < j < |ms| ==> !Speaks(ms, j, name)
    ensures Lookup(Collect(ms), name) == Some(Tidy(ms[i].reason))
  {
    hide Tidy, Upper, Strip, Sorted, Put, Lookup, Collect;
    var n := |ms| - 1;
    NamelessIsAbsent(ms[..n]);
    CollectOneMore(ms, name);
    if i < n {
      forall j | i < j < n ensures !Speaks(ms[..n], j, name) {
        assert !Speaks(ms, j, name);
      }
      LastSpeaks(ms[..n], i, name);
    }
  }

  lemma CollectOneMore(ms: seq<Match>, name: string)
    requires ms != [] && Sorted(Collect(ms[..|ms| - 1]))
    ensures Sorted(Collect(ms))
    ensures
      var n := |ms| - 1;
      Lookup(Collect(ms), name) == if Speaks(ms, n, name) then Some(Tidy(ms[n].reason)) else Lookup(Collect(ms[..n]), name)
  {
    hide Tidy, Upper, Strip, Sorted, Put, Lookup;
    var n := |ms| - 1;
    PutSorted(Collect(ms[..n]), Segment(Upper(Strip(ms[n].account)), Tidy(ms[n].reason)));
    if name == "" {
      NamelessIsAbsent(ms);
      NamelessIsAbsent(ms[..n]);
    }
  }

  lemma {:induction false} NamelessIsAbsent(ms: seq<Match>)
    ensures Sorted(Collect(ms)) && Lookup(Collect(ms), "") == None
  {
    hide Tidy, Upper, Strip, Sorted, Put, Lookup;
    if ms == [] {
      NothingSorted();
      LookupAbsent([], "");
    } else {
      var n := |ms| - 1;
      NamelessIsAbsent(ms[..n]);
      PutSorted(Collect(ms[..n]), Segment(Upper(Strip(ms[n].account)), Tidy(ms[n].reason)));
    }
  }

  /** A reason is tidied by taking white space off both ends, and then blanks and
      semicolons off the end. */
  lemma TidyIs(reason: string)
    ensures OnlySpaces(reason) ==> Tidy(reason) == ""
    ensures !OnlySpaces(reason) ==>
      exists i: nat, j: nat :: Core(reason, i, j) && i + |Tidy(reason)| <= j && Tidy(reason) == reason[i..i + |Tidy(reason)|]
        && (forall k :: i + |Tidy(reason)| <= k < j ==> reason[k] in {' ', ';'})
        && (Tidy(reason) != "" ==> Tidy(reason)[|Tidy(reason)| - 1] !in {' ', ';'})
  {
    hide Strip, IsSpace, TrimEnd, OnlySpaces;
    StripIsCore(reason);
    if !OnlySpaces(reason) {
      var i: nat, j: nat :| Core(reason, i, j) && Strip(reason) == reason[i..j];
      TrimmedWithin(reason, i, j);
    }
  }

  lemma TrimmedWithin(reason: string, i: nat, j: nat)
    requires i <= j <= |reason|
    ensures var r := TrimEnd(reason[i..j]);
      && i + |r| <= j && r == reason[i..i + |r|]
      && (forall k :: i + |r| <= k < j ==> reason[k] in {' ', ';'})
      && (r != "" ==> r[|r| - 1] !in {' ', ';'})
  {
    hide TrimEnd;
    var t, r := reason[i..j], TrimEnd(reason[i..j]);
    assert r == t[..|r|];
    assert forall k :: i + |r| <= k < j ==> t[k - i] == reason[k];
  }

  // ---- Text without a header ----

  /** A text in which nobody is named is everybody's reason, and is tagged with the name it
      is given. */
  lemma UntaggedOutcome(raw: string, account: Option<string>, accountId: Option<nat>)
    requires !OnlySpaces(raw) && forall i :: 0 <= i < |Strip(raw)| ==> !Headed(Strip(raw), i)
    ensures Parse(Some(raw)) == [] && Scope(Some(raw), account, accountId) == Some(Strip(raw))
    ensures
      var name := if account.Some? then Strip(account.value) else "";
      Tagged(account, Some(raw), accountId)
      == if name != "" then Some("Account " + name + ": " + Strip(raw))
         else if accountId.Some? then Some("Account " + Digits(accountId.value) + ": " + Strip(raw))
         else Some(Strip(raw))
  {
    hide Headed, Upper, NextMatch, Strip, OnlySpaces, IsSpace;
    BlankIff(raw);
    NoMatchIff(Strip(raw));
    StripTwice(raw);
    NothingCollected();
    DigitsNotEmpty(accountId.GetOr(0));
    hide Digits;
  }

  lemma NothingCollected()
    ensures Collect([]) == []
  {}

  lemma DigitsNotEmpty(n: nat)
    ensures Digits(n) != ""
  {}
}
