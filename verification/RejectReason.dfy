/** Reject reasons of several accounts in one text: scanning it for account headers,
    printing it back, merging two texts, and picking one account's reason. */
module RejectReason {
  import opened Options
  import opened Text
  import opened Segments

  // ---- Scanning: the header pattern and its lazy reason ----

  const WORD: string := "ACCOUNT"

  /** What follows the word, the spaces, the shortest label and its colon. */
  datatype Head = Head(account: string, rest: string)

  /** The first colon at or after `i`, before any space. */
  function ColonAt(t: string, i: nat): (r: Option<nat>)
    requires i <= |t|
    ensures r.Some? ==> i <= r.value < |t| && t[r.value] == ':'
    ensures r.Some? ==> forall j :: i <= j < r.value ==> !IsSpace(t[j]) && t[j] != ':'
    decreases |t| - i
  {
    if i == |t| || IsSpace(t[i]) then None
    else if t[i] == ':' then Some(i)
    else ColonAt(t, i + 1)
  }

  predicate StartsWithWord(t: string) {
    7 <= |t| && Upper(t[..7]) == WORD
  }

  /** At least one space, then a label of at least one character, then a colon. */
  function LabelAfter(spaced: string): (r: Option<Head>)
    ensures r.Some? ==> |r.value.rest| < |spaced|
  {
    var z := LStrip(spaced);
    if |z| == |spaced| || z == "" then None
    else
      var colon := ColonAt(z, 1);
      if colon.None? then None else Some(Head(z[..colon.value], z[colon.value + 1..]))
  }

  /** A header at the very start of the text. */
  function Header(t: string): (r: Option<Head>)
    ensures r.Some? ==> |r.value.rest| < |t|
  {
    if StartsWithWord(t) then LabelAfter(t[7..]) else None
  }

  /** A reason ends before a header, before a semicolon that only spaces part from a
      header, and at the end. */
  predicate Ends(t: string) {
    t == "" || Header(t).Some? || (t[0] == ';' && Header(LStrip(t[1..])).Some?)
  }

  function ReasonLength(t: string): (q: nat)
    ensures q <= |t| && Ends(t[q..]) && forall i :: 0 <= i < q ==> !Ends(t[i..])
  {
    if Ends(t) then 0
    else
      var q := 1 + ReasonLength(t[1..]);
      assert forall i :: 1 <= i < |t| ==> t[i..] == t[1..][i - 1..];
      assert t[q..] == t[1..][q - 1..];
      q
  }

  datatype Match = Match(account: string, reason: string)

  datatype Found = Found(found: Match, rest: string)

  /** The first header in the text with its reason, and what is left to scan. */
  function NextMatch(t: string): (r: Option<Found>)
    ensures r.Some? ==> |r.value.rest| < |t|
  {
    if t == "" then None
    else
      var h := Header(t);
      if h.None? then NextMatch(t[1..])
      else
        var body := LStrip(h.value.rest);
        var q := ReasonLength(body);
        Some(Found(Match(h.value.account, body[..q]), body[q..]))
  }

  function Matches(t: string): seq<Match>
    decreases |t|
  {
    var m := NextMatch(t);
    if m.None? then [] else [m.value.found] + Matches(m.value.rest)
  }

  // ---- Cleaning and collecting ----

  /** Spaces and semicolons taken off the end. */
  function TrimEnd(t: string): (r: string)
    ensures r <= t && (r != "" ==> r[|r| - 1] !in {' ', ';'})
    ensures forall i :: |r| <= i < |t| ==> t[i] in {' ', ';'}
  {
    if t != "" && t[|t| - 1] in {' ', ';'} then TrimEnd(t[..|t| - 1]) else t
  }

  function Tidy(reason: string): string {
    TrimEnd(Strip(reason))
  }

  function Collect(ms: seq<Match>): seq<Segment> {
    if ms == [] then []
    else
      var n := |ms| - 1;
      var account, reason := Upper(Strip(ms[n].account)), Tidy(ms[n].reason);
      if account == "" || reason == "" then Collect(ms[..n]) else Put(Collect(ms[..n]), Segment(account, reason))
  }

  function ParseText(t: string): seq<Segment> {
    Collect(Matches(Strip(t)))
  }

  function Parse(raw: Option<string>): seq<Segment> {
    if raw.None? || Blank(raw.value) then [] else ParseText(raw.value)
  }

  method ParseAccountRejectSegments(raw: Option<string>) returns (out: seq<Segment>)
    ensures out == Parse(raw)
  {
    hide NextMatch, Tidy, Strip, Upper, Put;
    out := [];
    if raw.None? || Blank(raw.value) {
      return;
    }
    var text := Strip(raw.value);
    ghost var done := [];
    var next := NextMatch(text);
    var left := text;
    while next.Some?
      invariant next == NextMatch(left)
      invariant done + Matches(left) == Matches(text)
      invariant out == Collect(done)
      decreases |left|
    {
      var m := next.value.found;
      var account, reason := Upper(Strip(m.account)), Tidy(m.reason);
      if account != "" && reason != "" {
        out := Put(out, Segment(account, reason));
      }
      assert (done + [m])[..|done|] == done;
      assert done + ([m] + Matches(next.value.rest)) == done + [m] + Matches(next.value.rest);
      done := done + [m];
      left := next.value.rest;
      next := NextMatch(left);
    }
    assert done == Matches(text);
  }

  // ---- Printing, merging, scoping ----

  function Printed(s: Segment): string {
    "Account " + s.account + ": " + s.reason
  }

  function Format(segs: seq<Segment>): string {
    if segs == [] then ""
    else if |segs| == 1 then Printed(segs[0])
    else Printed(segs[0]) + "; " + Format(segs[1..])
  }

  predicate Empty(raw: Option<string>) {
    raw.None? || Blank(raw.value)
  }

  function Merge(existing: Option<string>, incoming: Option<string>): Option<string> {
    if Empty(incoming) then (if Empty(existing) then None else existing)
    else
      var newer, stored := Parse(Some(Strip(incoming.value))), Parse(existing);
      if newer == [] then (if stored == [] then Some(Strip(incoming.value)) else Some(Format(stored)))
      else Some(Format(Override(stored, newer)))
  }

  /** The reason of the first account key that has one; the whole text when no account is
      named in it. */
  function Scope(raw: Option<string>, account: Option<string>, accountId: Option<nat>): Option<string> {
    if Empty(raw) then None
    else
      var text := Strip(raw.value);
      var segs := Parse(Some(text));
      if segs == [] then Some(text)
      else
        var byAccount := if account.Some? && !Blank(account.value) then Lookup(segs, Upper(Strip(account.value))) else None;
        if byAccount.Some? || accountId.None? then byAccount else Lookup(segs, Digits(accountId.value))
  }

  /** A reason tagged with its account, unless it is tagged already or nobody is named. */
  function Tagged(account: Option<string>, reason: Option<string>, accountId: Option<nat>): Option<string> {
    if Empty(reason) then None
    else
      var text := Strip(reason.value);
      var name := if account.Some? then Strip(account.value) else "";
      var tag := if name != "" then name else if accountId.Some? then Digits(accountId.value) else "";
      if Parse(Some(text)) != [] || tag == "" then Some(text) else Some("Account " + tag + ": " + text)
  }

  // ---- Which segments can be printed ----

  ghost predicate HeaderFree(t: string) {
    forall i :: 0 <= i < |t| ==> Header(t[i..]).None?
  }

  /** Without spaces, and without a colon except perhaps in front. */
  ghost predicate LabelChars(account: string) {
    && account != ""
    && (forall i :: 0 <= i < |account| ==> !IsSpace(account[i]))
    && (forall i :: 1 <= i < |account| ==> account[i] != ':')
  }

  ghost predicate LabelOk(account: string) {
    LabelChars(account) && Upper(account) == account
  }

  /** Text the scanner takes for one reason. */
  ghost predicate Scannable(reason: string) {
    reason != "" && !IsSpace(reason[0]) && HeaderFree(reason)
  }

  ghost predicate AllPrintable(segs: seq<Segment>) {
    forall i :: 0 <= i < |segs| ==> LabelOk(segs[i].account) && Scannable(segs[i].reason)
  }

  // ---- Headers and what stands around them ----

  lemma {:induction false} ColonIsAt(t: string, i: nat, n: nat)
    requires i <= n < |t| && t[n] == ':' && forall j :: i <= j < n ==> !IsSpace(t[j]) && t[j] != ':'
    ensures ColonAt(t, i) == Some(n)
    decreases n - i
  {
    if i < n {
      ColonIsAt(t, i + 1, n);
    }
  }

  lemma {:induction false} ColonIsNot(t: string, i: nat, n: nat)
    requires i <= n <= |t| && (n < |t| ==> IsSpace(t[n])) && forall j :: i <= j < n ==> t[j] != ':'
    ensures ColonAt(t, i) == None
    decreases n - i
  {
    if i < n {
      ColonIsNot(t, i + 1, n);
    }
  }

  lemma SpaceStripped(t: string)
    requires t != "" && !IsSpace(t[0])
    ensures LStrip(" " + t) == t
  {
    assert (" " + t)[1..] == t;
    assert LStrip(t) == t;
  }

  /** The word, a space, and a label that ends in a colon. */
  lemma HeaderAt(z: string, n: nat)
    requires z != "" && !IsSpace(z[0]) && ColonAt(z, 1) == Some(n)
    ensures Header("Account" + (" " + z)) == Some(Head(z[..n], z[n + 1..]))
  {
    hide LStrip, Upper, ColonAt;
    var all := "Account" + (" " + z);
    assert all[..7] == "Account";
    WordIsUpper();
    assert all[7..] == " " + z;
    SpaceStripped(z);
  }

  lemma WordIsUpper()
    ensures Upper("Account") == WORD
  {}

  lemma HeaderPrinted(account: string, t: string)
    requires LabelChars(account)
    ensures Header("Account " + account + ": " + t) == Some(Head(account, " " + t))
  {
    hide LStrip, Upper, ColonAt, Header;
    var z := account + ": " + t;
    assert "Account " + account + ": " + t == "Account" + (" " + z);
    assert z[0] == account[0];
    forall j | 1 <= j < |account| ensures !IsSpace(z[j]) && z[j] != ':' {
      assert z[j] == account[j];
    }
    ColonIsAt(z, 1, |account|);
    HeaderAt(z, |account|);
    assert z[..|account|] == account && z[|account| + 1..] == " " + t;
  }

  /** A header stays one when text is added behind it. */
  lemma HeaderExtends(x: string, y: string)
    requires Header(x).Some?
    ensures Header(x + y).Some?
  {
    hide LabelAfter, Upper;
    assert (x + y)[..7] == x[..7] && (x + y)[7..] == x[7..] + y;
    LabelExtends(x[7..], y);
  }

  lemma LabelExtends(spaced: string, y: string)
    requires LabelAfter(spaced).Some?
    ensures LabelAfter(spaced + y).Some?
  {
    hide LStrip, ColonAt;
    LStripAppend(spaced, y);
    ColonExtends(LStrip(spaced), y);
  }

  lemma ColonExtends(z: string, y: string)
    requires z != "" && ColonAt(z, 1).Some?
    ensures ColonAt(z + y, 1) == ColonAt(z, 1)
  {
    hide ColonAt;
    var n := ColonAt(z, 1).value;
    forall j | 1 <= j < n ensures !IsSpace((z + y)[j]) && (z + y)[j] != ':' {
      assert (z + y)[j] == z[j];
    }
    ColonIsAt(z + y, 1, n);
  }

  lemma HeaderFreePrefix(p: string, t: string)
    requires HeaderFree(t) && p <= t
    ensures HeaderFree(p)
  {
    forall i | 0 <= i < |p| ensures Header(p[i..]).None? {
      assert t[i..] == p[i..] + t[|p|..];
      if Header(p[i..]).Some? {
        HeaderExtends(p[i..], t[|p|..]);
      }
    }
  }

  /** Nothing follows, or the separator does. */
  predicate Separated(rest: string) {
    rest == "" || (|rest| >= 2 && rest[0] == ';' && rest[1] == ' ')
  }

  lemma WordHasNoSeparator(x: string, rest: string)
    requires |x| < 7 && Separated(rest)
    ensures Header(x + rest).None?
  {
    var all := x + rest;
    if 7 <= |all| {
      assert all[..7][|x|] == ';';
      assert Upper(all[..7])[|x|] == ';';
    }
  }

  /** No header starts in a reason and ends behind it. */
  lemma NoHeaderAcross(x: string, rest: string)
    requires Header(x).None? && Separated(rest)
    ensures Header(x + rest).None?
  {
    if |x| < 7 {
      WordHasNoSeparator(x, rest);
    } else {
      hide LabelAfter, Upper;
      assert (x + rest)[..7] == x[..7] && (x + rest)[7..] == x[7..] + rest;
      if StartsWithWord(x) && rest != "" {
        NoLabelAcross(x[7..], rest);
      } else if rest == "" {
        assert x + rest == x;
      }
    }
  }

  lemma NoLabelAcross(y: string, rest: string)
    requires LabelAfter(y).None? && Separated(rest) && rest != ""
    ensures LabelAfter(y + rest).None?
  {
    hide LStrip, ColonAt;
    LStripAppend(y, rest);
    var z := LStrip(y);
    if z == "" {
      NoSpaceToStrip(rest);
      ColonIsNot(rest, 1, 1);
    } else if |z| < |y| {
      NoColonAcross(z, rest, 1);
    }
  }

  lemma NoSpaceToStrip(t: string)
    requires t != "" && !IsSpace(t[0])
    ensures LStrip(t) == t
  {}

  lemma {:induction false} NoColonAcross(z: string, rest: string, i: nat)
    requires i <= |z| && ColonAt(z, i).None? && Separated(rest) && rest != ""
    ensures ColonAt(z + rest, i).None?
    decreases |z| - i
  {
    if i == |z| {
      ColonIsNot(z + rest, i, i + 1);
    } else {
      assert (z + rest)[i] == z[i];
      if !IsSpace(z[i]) {
        NoColonAcross(z, rest, i + 1);
      }
    }
  }

  // ---- Scanning what was printed ----

  lemma NotEndedAcross(x: string, rest: string)
    requires x != "" && HeaderFree(x) && Separated(rest)
    ensures !Ends(x + rest)
  {
    hide Header, LStrip;
    assert x[0..] == x;
    NoHeaderAcross(x, rest);
    assert (x + rest)[1..] == x[1..] + rest;
    LStripAppend(x[1..], rest);
    var y := LStrip(x[1..]);
    if y == "" {
      SeparatorHasNoHeader(rest);
    } else {
      assert y == x[|x| - |y|..];
      NoHeaderAcross(y, rest);
    }
  }

  lemma SeparatorHasNoHeader(rest: string)
    requires Separated(rest)
    ensures Header(LStrip(rest)).None?
  {
    if rest != "" {
      assert LStrip(rest) == rest;
      NotAWord(rest);
    }
  }

  lemma HeaderFreeTail(x: string)
    requires HeaderFree(x) && x != ""
    ensures HeaderFree(x[1..])
  {
    forall i | 0 <= i < |x[1..]| ensures Header(x[1..][i..]).None? {
      assert x[1..][i..] == x[i + 1..];
    }
  }

  lemma {:induction false} ReasonStops(x: string, rest: string)
    requires HeaderFree(x) && Separated(rest) && Ends(rest)
    ensures ReasonLength(x + rest) == |x|
  {
    hide Header, Ends;
    if x == "" {
      assert x + rest == rest;
    } else {
      NotEndedAcross(x, rest);
      assert (x + rest)[1..] == x[1..] + rest;
      HeaderFreeTail(x);
      ReasonStops(x[1..], rest);
    }
  }

  function AsMatches(segs: seq<Segment>): (r: seq<Match>)
    ensures |r| == |segs| && forall i :: 0 <= i < |r| ==> r[i] == Match(segs[i].account, segs[i].reason)
  {
    if segs == [] then [] else [Match(segs[0].account, segs[0].reason)] + AsMatches(segs[1..])
  }

  function Following(segs: seq<Segment>): string {
    if segs == [] then "" else "; " + Format(segs)
  }

  lemma FormatFirst(segs: seq<Segment>)
    requires segs != []
    ensures Format(segs) == "Account " + segs[0].account + ": " + (segs[0].reason + Following(segs[1..]))
  {
    assert |segs| == 1 ==> segs[1..] == [];
    assert Format(segs) == Printed(segs[0]) + Following(segs[1..]);
  }

  lemma FollowingEnds(segs: seq<Segment>)
    requires AllPrintable(segs)
    ensures Separated(Following(segs)) && Ends(Following(segs))
  {
    hide Header, LStrip, Format, LabelChars, HeaderFree, AllPrintable;
    if segs != [] {
      PrintableParts(segs);
      FormatFirst(segs);
      HeaderPrinted(segs[0].account, segs[0].reason + Following(segs[1..]));
      SeparatorEnds(Format(segs));
    }
  }

  lemma SeparatorEnds(text: string)
    requires text != "" && text[0] == 'A' && Header(text).Some?
    ensures Separated("; " + text) && Ends("; " + text)
  {
    hide Header, LStrip;
    assert ("; " + text)[1..] == " " + text;
    SpaceStripped(text);
  }

  /** Scanning printed segments finds them again. */
  lemma {:induction false} FormatMatches(segs: seq<Segment>)
    requires AllPrintable(segs)
    ensures Matches(Format(segs)) == AsMatches(segs)
  {
    if segs != [] {
      hide Header, LStrip, Format, Following, Ends, LabelOk, Separated, Matches, HeaderFree, ReasonLength, NextMatch,
           AllPrintable;
      var tail := Following(segs[1..]);
      var r := segs[0].reason;
      PrintableParts(segs);
      FormatFirst(segs);
      HeaderPrinted(segs[0].account, r + tail);
      FollowingEnds(segs[1..]);
      ReasonStops(r, tail);
      FirstMatch(Format(segs), segs[0].account, r, tail);
      FollowingMatches(segs[1..]);
      FormatMatches(segs[1..]);
    }
  }

  lemma PrintableParts(segs: seq<Segment>)
    requires AllPrintable(segs) && segs != []
    ensures LabelOk(segs[0].account) && Scannable(segs[0].reason) && AllPrintable(segs[1..])
  {}

  lemma FirstMatch(t: string, account: string, r: string, tail: string)
    requires t != "" && Header(t) == Some(Head(account, " " + (r + tail)))
    requires r != "" && !IsSpace(r[0]) && ReasonLength(r + tail) == |r|
    ensures Matches(t) == [Match(account, r)] + Matches(tail)
  {
    hide Header, LStrip, Ends, ReasonLength;
    assert (r + tail)[0] == r[0];
    SpaceStripped(r + tail);
    assert (r + tail)[..|r|] == r && (r + tail)[|r|..] == tail;
  }

  lemma FollowingMatches(segs: seq<Segment>)
    requires AllPrintable(segs)
    ensures Matches(Following(segs)) == Matches(Format(segs))
  {
    hide Header, NextMatch, AllPrintable;
    if segs != [] {
      var text := Format(segs);
      assert ("; " + text)[1..] == " " + text && (" " + text)[1..] == text;
      NotAWord("; " + text);
      NotAWord(" " + text);
      SkipOne("; " + text);
      SkipOne(" " + text);
    }
  }

  lemma SkipOne(t: string)
    requires t != "" && Header(t).None?
    ensures NextMatch(t) == NextMatch(t[1..])
  {}

  lemma NotAWord(t: string)
    requires t != "" && t[0] in {';', ' '}
    ensures Header(t).None?
  {
    if 7 <= |t| {
      assert Upper(t[..7])[0] == t[0];
    }
  }

  // ---- What the scanner returns can be printed ----

  ghost predicate FoundOk(m: Match) {
    LabelChars(m.account) && HeaderFree(m.reason) && (m.reason != "" ==> !IsSpace(m.reason[0]))
  }

  lemma HeaderLabel(t: string)
    requires Header(t).Some?
    ensures LabelChars(Header(t).value.account)
  {}

  lemma ReasonHeaderFree(body: string)
    ensures HeaderFree(body[..ReasonLength(body)])
  {
    hide Header;
    var q := ReasonLength(body);
    forall i | 0 <= i < q ensures Header(body[..q][i..]).None? {
      assert body[i..] == body[..q][i..] + body[q..];
      assert !Ends(body[i..]);
      if Header(body[..q][i..]).Some? {
        HeaderExtends(body[..q][i..], body[q..]);
      }
    }
  }

  lemma {:induction false} NextMatchOk(t: string)
    requires NextMatch(t).Some?
    ensures FoundOk(NextMatch(t).value.found)
  {
    hide Header, HeaderFree;
    if Header(t).None? {
      NextMatchOk(t[1..]);
    } else {
      HeaderLabel(t);
      ReasonHeaderFree(LStrip(Header(t).value.rest));
    }
  }

  lemma {:induction false} MatchesOk(t: string)
    ensures forall i :: 0 <= i < |Matches(t)| ==> FoundOk(Matches(t)[i])
    decreases |t|
  {
    hide NextMatch, FoundOk;
    if NextMatch(t).Some? {
      NextMatchOk(t);
      MatchesOk(NextMatch(t).value.rest);
    }
  }

  lemma UpperLabelOk(account: string)
    requires LabelChars(account)
    ensures LabelOk(Upper(account)) && Strip(account) == account
  {
    hide Upper, LStrip, RStrip;
    UpperTwice(account);
    NoSpaceToStrip(account);
  }

  lemma UpperTwice(t: string)
    ensures Upper(Upper(t)) == Upper(t)
  {}

  lemma TidyScannable(reason: string)
    requires HeaderFree(reason) && (reason != "" ==> !IsSpace(reason[0])) && Tidy(reason) != ""
    ensures Scannable(Tidy(reason)) && Tidy(reason)[|Tidy(reason)| - 1] !in {' ', ';'}
  {
    hide HeaderFree, Tidy;
    TidyIsPrefix(reason);
    HeaderFreePrefix(Tidy(reason), reason);
  }

  lemma TidyIsPrefix(reason: string)
    requires reason != "" ==> !IsSpace(reason[0])
    ensures Tidy(reason) <= reason
    ensures Tidy(reason) != "" ==> Tidy(reason)[|Tidy(reason)| - 1] !in {' ', ';'}
  {
    hide LStrip, RStrip, TrimEnd;
    if reason != "" {
      NoSpaceToStrip(reason);
    }
  }

  /** A scanned segment: printable, and without spaces or semicolons at its end. */
  ghost predicate Scanned(s: Segment) {
    && LabelOk(s.account) && Scannable(s.reason)
    && s.reason[|s.reason| - 1] !in {' ', ';'}
  }

  ghost predicate AllScanned(segs: seq<Segment>) {
    Sorted(segs) && forall i :: 0 <= i < |segs| ==> Scanned(segs[i])
  }

  lemma {:induction false} CollectScanned(ms: seq<Match>)
    requires forall i :: 0 <= i < |ms| ==> FoundOk(ms[i])
    ensures AllScanned(Collect(ms))
  {
    hide LabelOk, Scannable, HeaderFree, Tidy, Upper, Strip, Sorted, Put, FoundOk;
    if ms == [] {
      NothingSorted();
    } else {
      var n := |ms| - 1;
      CollectScanned(ms[..n]);
      FoundIsScanned(ms[n]);
      var s := Segment(Upper(Strip(ms[n].account)), Tidy(ms[n].reason));
      PutSorted(Collect(ms[..n]), s);
      PutMembers(Collect(ms[..n]), s);
      forall i | 0 <= i < |Collect(ms)| ensures Scanned(Collect(ms)[i]) {
        assert Collect(ms)[i] in Collect(ms);
      }
    }
  }

  lemma NothingSorted()
    ensures Sorted([])
  {}

  lemma FoundIsScanned(m: Match)
    requires FoundOk(m)
    ensures Tidy(m.reason) != "" ==> Scanned(Segment(Upper(Strip(m.account)), Tidy(m.reason)))
  {
    hide Tidy, Upper, Strip, Scannable, LabelOk;
    UpperLabelOk(m.account);
    if Tidy(m.reason) != "" {
      TidyScannable(m.reason);
    }
  }

  lemma ParseScanned(raw: Option<string>)
    ensures AllScanned(Parse(raw))
  {
    hide Matches, Collect, FoundOk;
    if !Empty(raw) {
      MatchesOk(Strip(raw.value));
      CollectScanned(Matches(Strip(raw.value)));
    } else {
      NothingSorted();
    }
  }

  // ---- Parsing what was printed ----

  ghost predicate DistinctLabels(ms: seq<Match>) {
    forall i, j :: 0 <= i < j < |ms| ==> ms[i].account != ms[j].account
  }

  function Kept(reason: string): Option<string> {
    if Tidy(reason) == "" then None else Some(Tidy(reason))
  }

  lemma {:induction false} CollectLookup(ms: seq<Match>, account: string)
    requires DistinctLabels(ms) && forall i :: 0 <= i < |ms| ==> LabelOk(ms[i].account)
    ensures Sorted(Collect(ms))
    ensures (forall i :: 0 <= i < |ms| ==> ms[i].account != account) ==> Lookup(Collect(ms), account) == None
    ensures forall i :: 0 <= i < |ms| && ms[i].account == account ==> Lookup(Collect(ms), account) == Kept(ms[i].reason)
  {
    hide Tidy, Upper, Strip, Sorted, Put, LabelOk, Lookup;
    if ms == [] {
      NothingSorted();
      LookupAbsent([], account);
    } else {
      var n := |ms| - 1;
      CollectLookup(ms[..n], account);
      LabelIsItself(ms[n].account);
      PutSorted(Collect(ms[..n]), Segment(ms[n].account, Tidy(ms[n].reason)));
      forall i | 0 <= i < |ms| && ms[i].account == account ensures Lookup(Collect(ms), account) == Kept(ms[i].reason) {
        if i < n {
          assert ms[..n][i] == ms[i] && ms[n].account != account;
        } else {
          assert forall j :: 0 <= j < n ==> ms[..n][j].account != account;
        }
      }
    }
  }

  lemma LabelIsItself(account: string)
    requires LabelOk(account)
    ensures Upper(Strip(account)) == account != ""
  {
    NoSpaceToStrip(account);
  }

  /** Stripping printed text strips its last reason. */
  function StripLast(segs: seq<Segment>): seq<Segment> {
    if segs == [] then [] else
      var n := |segs| - 1;
      segs[..n] + [segs[n].(reason := RStrip(segs[n].reason))]
  }

  lemma {:induction false} StripFormat(segs: seq<Segment>)
    requires segs != [] && AllPrintable(segs)
    ensures RStrip(Format(segs)) == Format(StripLast(segs))
    ensures Format(segs) != "" && Format(segs)[0] == 'A'
  {
    hide RStrip, HeaderFree, LabelOk, Format, Printed;
    var r := segs[|segs| - 1].reason;
    if |segs| == 1 {
      assert segs == [segs[0]] && StripLast(segs) == [segs[0].(reason := RStrip(r))];
      StripOne(segs[0]);
    } else {
      StripFormat(segs[1..]);
      var shown := StripLast(segs);
      assert shown[1..] == StripLast(segs[1..]) && shown[0] == segs[0];
      FormatCons(segs);
      FormatCons(shown);
      RStripAppend(Printed(segs[0]) + "; ", Format(segs[1..]));
    }
  }

  lemma FormatCons(segs: seq<Segment>)
    requires 1 < |segs|
    ensures Format(segs) == Printed(segs[0]) + "; " + Format(segs[1..])
    ensures Format(segs) != "" && Format(segs)[0] == 'A'
  {}

  lemma StripOne(s: Segment)
    requires s.reason != "" && !IsSpace(s.reason[0])
    ensures RStrip(Format([s])) == Format([s.(reason := RStrip(s.reason))])
    ensures Format([s]) != "" && Format([s])[0] == 'A'
  {
    hide RStrip;
    RStripAppend("Account " + s.account + ": ", s.reason);
  }

  lemma StripLastPrintable(segs: seq<Segment>)
    requires AllPrintable(segs)
    ensures AllPrintable(StripLast(segs))
  {
    hide LabelOk, HeaderFree;
    if segs != [] {
      var r := segs[|segs| - 1].reason;
      HeaderFreePrefix(RStrip(r), r);
    }
  }

  lemma RStripTwice(t: string)
    ensures RStrip(RStrip(t)) == RStrip(t)
  {}

  lemma TidyStripped(reason: string)
    requires reason != "" && !IsSpace(reason[0])
    ensures Tidy(RStrip(reason)) == Tidy(reason)
  {
    NoSpaceToStrip(reason);
    NoSpaceToStrip(RStrip(reason));
    RStripTwice(reason);
  }

  /** Printed segments are scanned as they are, but for spaces at the very end. */
  lemma ShownMatches(segs: seq<Segment>)
    requires AllScanned(segs) && segs != []
    ensures
      var ms := AsMatches(StripLast(segs));
      && Parse(Some(Format(segs))) == Collect(ms) && |ms| == |segs| && DistinctLabels(ms)
      && forall i :: 0 <= i < |segs| ==>
           ms[i].account == segs[i].account && LabelOk(ms[i].account) && Kept(ms[i].reason) == Kept(segs[i].reason)
  {
    hide Scanned, LabelOk, Kept, StripLast, Parse, Collect, Format, Sorted;
    PrintedAsMatches(segs);
    SortedIsDistinct(segs);
    StripLastKeeps(segs);
  }

  lemma StripLastKeeps(segs: seq<Segment>)
    requires AllScanned(segs) && segs != []
    ensures |StripLast(segs)| == |segs|
    ensures forall i :: 0 <= i < |segs| ==>
      StripLast(segs)[i].account == segs[i].account && Kept(StripLast(segs)[i].reason) == Kept(segs[i].reason)
  {
    hide Scannable, LabelOk, Tidy, RStrip, LStrip, Sorted;
    var n := |segs| - 1;
    FirstCharNotSpace(segs[n].reason);
    TidyStripped(segs[n].reason);
  }

  /** Parsing printed segments gives every account its own reason, tidied. */
  lemma FormatLookup(segs: seq<Segment>, account: string)
    requires AllScanned(segs)
    ensures Sorted(Parse(Some(Format(segs))))
    ensures Lookup(Parse(Some(Format(segs))), account)
         == match Lookup(segs, account) case None => None case Some(r) => Kept(r)
  {
    hide Kept, Parse, Collect, Format, Sorted, Lookup, Scanned, StripLast, LabelOk;
    if segs == [] {
      NothingPrinted();
      LookupAbsent(segs, account);
    } else {
      ShownMatches(segs);
      var ms := AsMatches(StripLast(segs));
      CollectLookup(ms, account);
      if Lookup(segs, account).None? {
        forall i | 0 <= i < |ms| ensures ms[i].account != account {
          LookupMember(segs, i);
        }
      } else {
        LookupFinds(segs, account);
        var i :| 0 <= i < |segs| && segs[i] == Segment(account, Lookup(segs, account).value);
        assert ms[i].account == account;
      }
    }
  }

  lemma FirstCharNotSpace(reason: string)
    requires Scannable(reason)
    ensures reason != "" && !IsSpace(reason[0])
  {}

  lemma NothingPrinted()
    ensures Parse(Some(Format([]))) == [] && Sorted([])
  {}

  lemma SortedIsDistinct(segs: seq<Segment>)
    requires Sorted(segs)
    ensures forall i, j :: 0 <= i < j < |segs| ==> segs[i].account != segs[j].account
  {
    forall i, j | 0 <= i < j < |segs| ensures segs[i].account != segs[j].account {
      LessIsStrictTotal(segs[i].account, segs[j].account);
    }
  }

  lemma PrintedAsMatches(segs: seq<Segment>)
    requires AllScanned(segs) && segs != []
    ensures Parse(Some(Format(segs))) == Collect(AsMatches(StripLast(segs)))
    ensures forall i :: 0 <= i < |segs| ==> LabelOk(segs[i].account) && Scannable(segs[i].reason)
  {
    hide Scannable, LabelOk, RStrip, LStrip, Matches, Collect, Format, Sorted;
    StripFormat(segs);
    StripLastPrintable(segs);
    NoSpaceToStrip(Format(segs));
    StripFormat(StripLast(segs));
    FormatMatches(StripLast(segs));
  }

  // ---- Round trips ----

  predicate EndsInSpace(t: string) {
    t != "" && IsSpace(t[|t| - 1])
  }

  /** No reason ends in white space. Taking semicolons off may leave such an end. */
  predicate Clean(segs: seq<Segment>) {
    forall i :: 0 <= i < |segs| ==> !EndsInSpace(segs[i].reason)
  }

  lemma KeptIffClean(s: Segment)
    requires Scanned(s)
    ensures Kept(s.reason) == Some(s.reason) <==> !EndsInSpace(s.reason)
  {
    NoSpaceToStrip(s.reason);
  }

  /** Parsing undoes printing exactly when no reason ends in white space. */
  lemma PrintThenParseIff(segs: seq<Segment>)
    requires AllScanned(segs)
    ensures Parse(Some(Format(segs))) == segs <==> Clean(segs)
  {
    hide Parse, Format, Kept, Scanned, EndsInSpace, Lookup, Sorted;
    var again := Parse(Some(Format(segs)));
    if Clean(segs) {
      forall account ensures Lookup(again, account) == Lookup(segs, account) {
        FormatLookup(segs, account);
        if Lookup(segs, account).Some? {
          LookupFinds(segs, account);
          var i :| 0 <= i < |segs| && segs[i] == Segment(account, Lookup(segs, account).value);
          KeptIffClean(segs[i]);
        }
      }
      FormatLookup(segs, "");
      SameLookups(again, segs);
    }
    if again == segs {
      forall i | 0 <= i < |segs| ensures !EndsInSpace(segs[i].reason) {
        FormatLookup(segs, segs[i].account);
        LookupMember(segs, i);
        KeptIffClean(segs[i]);
      }
    }
  }

  lemma OverrideScanned(stored: seq<Segment>, newer: seq<Segment>)
    requires AllScanned(stored) && AllScanned(newer)
    ensures AllScanned(Override(stored, newer))
    ensures Clean(stored) && Clean(newer) ==> Clean(Override(stored, newer))
  {
    hide Scanned, EndsInSpace, Sorted;
    OverrideSorted(stored, newer);
    OverrideMembers(stored, newer);
    forall i | 0 <= i < |Override(stored, newer)| ensures Scanned(Override(stored, newer)[i]) {
      assert Override(stored, newer)[i] in Override(stored, newer);
    }
    if Clean(stored) && Clean(newer) {
      forall i | 0 <= i < |Override(stored, newer)| ensures !EndsInSpace(Override(stored, newer)[i].reason) {
        assert Override(stored, newer)[i] in Override(stored, newer);
      }
    }
  }

  lemma StripTwice(t: string)
    ensures Strip(Strip(t)) == Strip(t)
  {
    var u := LStrip(t);
    if u != "" {
      NoSpaceToStrip(RStrip(u));
    }
    RStripTwice(u);
  }

  lemma ParseStripped(raw: Option<string>)
    requires raw.Some?
    ensures Parse(Some(Strip(raw.value))) == Parse(raw)
  {
    hide Strip, Matches, Collect;
    StripTwice(raw.value);
  }

  /** Merging prints something, rather than passing a text through. */
  predicate MergePrints(existing: Option<string>, incoming: Option<string>) {
    !Empty(incoming) && (Parse(incoming) != [] || Parse(existing) != [])
  }

  lemma OverrideByNothing(segs: seq<Segment>)
    ensures Override(segs, []) == segs
  {}

  lemma MergeText(existing: Option<string>, incoming: Option<string>)
    ensures MergePrints(existing, incoming) ==>
      Merge(existing, incoming) == Some(Format(Override(Parse(existing), Parse(incoming))))
    ensures !MergePrints(existing, incoming) ==>
      Parse(Merge(existing, incoming)) == Override(Parse(existing), Parse(incoming))
  {
    hide Strip, ParseText, Format, Override;
    OverrideByNothing(Parse(existing));
    if incoming.Some? {
      ParseStripped(incoming);
    }
  }

  /** Whatever the texts, reading a merge gives each account its newer reason, exactly
      when the merge passes a text through or no merged reason ends in white space. */
  lemma MergeOverridesIff(existing: Option<string>, incoming: Option<string>)
    ensures
      var merged := Override(Parse(existing), Parse(incoming));
      Parse(Merge(existing, incoming)) == merged <==> !MergePrints(existing, incoming) || Clean(merged)
  {
    hide Parse, Merge, Override, Format, Clean, AllScanned, MergePrints;
    MergeText(existing, incoming);
    ParseScanned(existing);
    ParseScanned(incoming);
    OverrideScanned(Parse(existing), Parse(incoming));
    PrintThenParseIff(Override(Parse(existing), Parse(incoming)));
  }

  lemma OverrideTwice(a: seq<Segment>, b: seq<Segment>)
    requires Sorted(a) && Sorted(b)
    ensures Override(Override(a, b), b) == Override(a, b)
  {
    OverrideSorted(a, b);
    OverrideSorted(Override(a, b), b);
    SameLookups(Override(Override(a, b), b), Override(a, b));
  }

  /** Merging the same news twice changes nothing, down to the text. */
  lemma MergeIsIdempotent(existing: Option<string>, incoming: Option<string>)
    requires Clean(Parse(existing)) && Clean(Parse(incoming))
    ensures Merge(Merge(existing, incoming), incoming) == Merge(existing, incoming)
  {
    hide Parse, Merge, Override, Format, Clean, MergePrints;
    var once := Merge(existing, incoming);
    if MergePrints(existing, incoming) {
      ParseScanned(existing);
      ParseScanned(incoming);
      OverrideScanned(Parse(existing), Parse(incoming));
      MergeOverridesIff(existing, incoming);
      MergeText(existing, incoming);
      MergeText(once, incoming);
      OverrideTwice(Parse(existing), Parse(incoming));
      PrintsAgain(existing, incoming);
    } else {
      PassesThrough(existing, incoming);
      PassesThrough(once, incoming);
    }
  }

  lemma PrintsAgain(existing: Option<string>, incoming: Option<string>)
    requires MergePrints(existing, incoming)
    requires Parse(Merge(existing, incoming)) == Override(Parse(existing), Parse(incoming))
    ensures MergePrints(Merge(existing, incoming), incoming)
  {
    hide Parse, Merge, Put;
  }

  lemma PassesThrough(existing: Option<string>, incoming: Option<string>)
    requires !MergePrints(existing, incoming)
    ensures Merge(existing, incoming)
         == if !Empty(incoming) then Some(Strip(incoming.value)) else if Empty(existing) then None else existing
    ensures !MergePrints(Merge(existing, incoming), incoming)
  {
    hide Parse, Format, Override, Strip;
    if incoming.Some? {
      ParseStripped(incoming);
    }
  }

  lemma ScannedIsNotEmpty(raw: Option<string>)
    ensures Parse(raw) != [] ==> !Empty(raw)
  {}

  lemma OverridesCommute(e: seq<Segment>, a: seq<Segment>, b: seq<Segment>)
    requires Sorted(e) && Sorted(a) && Sorted(b)
    requires forall account :: Lookup(a, account).None? || Lookup(b, account).None?
    ensures Override(Override(e, a), b) == Override(Override(e, b), a)
  {
    OverrideSorted(e, a);
    OverrideSorted(e, b);
    OverrideSorted(Override(e, a), b);
    OverrideSorted(Override(e, b), a);
    SameLookups(Override(Override(e, a), b), Override(Override(e, b), a));
  }

  /** Writers of different accounts may come in either order: the text is the same. */
  lemma MergesCommute(existing: Option<string>, a: Option<string>, b: Option<string>)
    requires Clean(Parse(existing)) && Clean(Parse(a)) && Clean(Parse(b)) && Parse(a) != [] && Parse(b) != []
    requires forall account :: Lookup(Parse(a), account).None? || Lookup(Parse(b), account).None?
    ensures Merge(Merge(existing, a), b) == Merge(Merge(existing, b), a)
  {
    hide Parse, Merge, Override, Format, Clean, Lookup;
    ParseScanned(existing);
    ParseScanned(a);
    ParseScanned(b);
    ScannedIsNotEmpty(a);
    ScannedIsNotEmpty(b);
    OverrideScanned(Parse(existing), Parse(a));
    OverrideScanned(Parse(existing), Parse(b));
    MergeOverridesIff(existing, a);
    MergeOverridesIff(existing, b);
    MergeText(Merge(existing, a), b);
    MergeText(Merge(existing, b), a);
    OverridesCommute(Parse(existing), Parse(a), Parse(b));
  }

  // ---- One account's reason ----

  /** A reason the scanner takes as it is. */
  ghost predicate Plain(reason: string) {
    Scannable(reason) && Tidy(reason) == reason
  }

  lemma {:induction false} NoMatchWithoutHeader(t: string)
    requires HeaderFree(t)
    ensures NextMatch(t) == None
  {
    hide Header;
    if t != "" {
      assert t[0..] == t;
      HeaderFreeTail(t);
      NoMatchWithoutHeader(t[1..]);
    }
  }

  lemma TidyIsStripped(reason: string)
    requires Tidy(reason) == reason != "" && !IsSpace(reason[0])
    ensures Strip(reason) == reason
  {
    NoSpaceToStrip(reason);
  }

  lemma TaggedText(account: string, reason: string, accountId: Option<nat>)
    requires LabelChars(account) && Plain(reason)
    ensures Tagged(Some(account), Some(reason), accountId) == Some("Account " + account + ": " + reason)
  {
    hide Tidy, HeaderFree, Strip, LabelOk;
    TidyIsStripped(reason);
    NoMatchWithoutHeader(reason);
    UpperLabelOk(account);
  }

  lemma TaggedParses(account: string, reason: string)
    requires LabelChars(account) && Plain(reason)
    ensures Parse(Some("Account " + account + ": " + reason)) == [Segment(Upper(account), reason)]
  {
    hide Tidy, HeaderFree, LabelChars, Matches, Strip, Upper, Collect;
    var text := "Account " + account + ": " + reason;
    TaggedStrips(account, reason);
    TaggedMatches(account, reason);
    UpperLabelOk(account);
    CollectOne(account, reason);
  }

  lemma TaggedStrips(account: string, reason: string)
    requires Plain(reason)
    ensures Strip("Account " + account + ": " + reason) == "Account " + account + ": " + reason
  {
    hide Tidy, HeaderFree, LStrip, RStrip;
    TidyIsStripped(reason);
    NoSpaceToStrip(reason);
    NoSpaceToStrip("Account " + account + ": " + reason);
    RStripAppend("Account " + account + ": ", reason);
  }

  lemma TaggedMatches(account: string, reason: string)
    requires LabelChars(account) && Scannable(reason)
    ensures Matches("Account " + account + ": " + reason) == [Match(account, reason)]
  {
    hide HeaderFree, LabelChars, Matches, Header, Upper, ReasonLength;
    assert reason + "" == reason;
    HeaderPrinted(account, reason);
    ReasonStops(reason, "");
    FirstMatch("Account " + account + ": " + reason, account, reason, "");
    NothingToMatch();
  }

  lemma NothingToMatch()
    ensures Matches("") == []
  {}

  lemma CollectOne(account: string, reason: string)
    requires Strip(account) == account && Tidy(reason) != "" && LabelOk(Upper(account))
    ensures Collect([Match(account, reason)]) == [Segment(Upper(account), Tidy(reason))]
  {
    hide Strip, Tidy, Upper;
    assert [Match(account, reason)][..0] == [];
  }

  lemma PrintedNotEmpty(segs: seq<Segment>)
    requires AllScanned(segs) && segs != []
    ensures !Empty(Some(Format(segs)))
  {
    hide LabelOk, HeaderFree, Sorted;
    StripFormat(segs);
    NoSpaceToStrip(Format(segs));
  }

  lemma NotWithoutNews(segs: seq<Segment>, over: seq<Segment>)
    requires over != []
    ensures Override(segs, over) != []
  {}

  /** What a label reads after `account`'s reason was merged into `existing`. */
  function NewestOf(existing: Option<string>, account: string, reason: string, name: string): Option<string> {
    if name == Upper(account) then Some(reason)
    else match Lookup(Parse(existing), name)
      case None => None
      case Some(r) => Kept(r)
  }

  /** What a reader with a name reads under that name. */
  function OwnReason(existing: Option<string>, account: string, reason: string, reader: Option<string>): Option<string> {
    if reader.Some? && !Blank(reader.value) then NewestOf(existing, account, reason, Upper(Strip(reader.value))) else None
  }

  lemma MergedLookup(existing: Option<string>, account: string, reason: string, tagId: Option<nat>, name: string)
    requires LabelChars(account) && Plain(reason)
    ensures
      var merged := Merge(existing, Tagged(Some(account), Some(reason), tagId));
      && !Empty(merged) && Parse(Some(Strip(merged.value))) != []
      && Lookup(Parse(Some(Strip(merged.value))), name) == NewestOf(existing, account, reason, name)
  {
    hide Parse, Merge, Override, Format, Lookup, LabelChars, Tagged, AllScanned, Upper, Strip, Tidy, Blank, Scannable;
    var news := [Segment(Upper(account), reason)];
    TaggedText(account, reason, tagId);
    TaggedParses(account, reason);
    var incoming := Tagged(Some(account), Some(reason), tagId);
    ScannedIsNotEmpty(incoming);
    MergeText(existing, incoming);
    ParseScanned(existing);
    ParseScanned(incoming);
    OverrideScanned(Parse(existing), news);
    var all := Override(Parse(existing), news);
    NotWithoutNews(Parse(existing), news);
    PrintedNotEmpty(all);
    ParseStripped(Some(Format(all)));
    FormatLookup(all, name);
    FormatLookup(all, Upper(account));
    OverrideLookup(Parse(existing), news, name);
    OverrideLookup(Parse(existing), news, Upper(account));
    LookupOne(news[0], name);
    LookupOne(news[0], Upper(account));
    LookupNothing(Upper(account));
    PlainKept(reason);
  }

  /** After an account's reason is merged in, that account reads its newest reason and
      every other reader its own; a reader without one falls back to the label that is its
      account id in digits. */
  lemma ScopeReadsNewest(existing: Option<string>, account: string, reason: string, tagId: Option<nat>, reader: Option<string>, id: Option<nat>)
    requires LabelChars(account) && Plain(reason)
    ensures
      var own := OwnReason(existing, account, reason, reader);
      Scope(Merge(existing, Tagged(Some(account), Some(reason), tagId)), reader, id)
      == if own.Some? || id.None? then own else NewestOf(existing, account, reason, Digits(id.value))
  {
    hide Parse, Merge, Lookup, LabelChars, Tagged, Upper, Strip, Tidy, Blank, Scannable, NewestOf, Digits;
    MergedLookup(existing, account, reason, tagId, if reader.Some? then Upper(Strip(reader.value)) else "");
    MergedLookup(existing, account, reason, tagId, if id.Some? then Digits(id.value) else "");
  }

  /** So a reader gets what is not under its own name exactly when nothing is, and a label
      happens to be its account id in digits. */
  lemma ReadsAnotherIff(existing: Option<string>, account: string, reason: string, tagId: Option<nat>, reader: Option<string>, id: Option<nat>)
    requires LabelChars(account) && Plain(reason)
    ensures
      var own := OwnReason(existing, account, reason, reader);
      Scope(Merge(existing, Tagged(Some(account), Some(reason), tagId)), reader, id) != own
      <==> own.None? && id.Some? && NewestOf(existing, account, reason, Digits(id.value)).Some?
  {
    hide Merge, Tagged, Scope, NewestOf, OwnReason, Digits, LabelChars, Plain;
    ScopeReadsNewest(existing, account, reason, tagId, reader, id);
  }

  /** An account called by digits is read by another account with that id. */
  lemma SiblingIsRead(reason: string)
    requires Plain(reason)
    ensures Scope(Some("Account 7: " + reason), Some("U1"), Some(7)) == Some(reason)
  {
    hide Parse, Strip, Upper, Lookup, Digits, Plain, Scope, LabelChars;
    var text := "Account 7: " + reason;
    DigitsAreLabels();
    TaggedParses("7", reason);
    assert text == "Account " + "7" + ": " + reason;
    TaggedStrips("7", reason);
    LookupOne(Segment("7", reason), "7");
    LookupOne(Segment("7", reason), "U1");
    EndsAreSolid("U1");
    ScopeOf(text, "U1", 7, [Segment("7", reason)]);
  }

  lemma ScopeOf(text: string, account: string, id: nat, segs: seq<Segment>)
    requires Strip(text) == text != "" && Parse(Some(text)) == segs != [] && Strip(account) == account != ""
    ensures
      var own := Lookup(segs, Upper(account));
      Scope(Some(text), Some(account), Some(id)) == if own.Some? then own else Lookup(segs, Digits(id))
  {
    hide Parse, Strip, Upper, Lookup, Digits;
  }

  lemma DigitsAreLabels()
    ensures LabelChars("7") && Upper("7") == "7" && Digits(7) == "7" && Upper("U1") == "U1"
  {}

  lemma PlainKept(reason: string)
    requires Plain(reason)
    ensures Kept(reason) == Some(reason)
  {}

  lemma LookupNothing(account: string)
    ensures Lookup([], account) == None
  {}

  lemma LookupOne(s: Segment, account: string)
    ensures Lookup([s], account) == if account == s.account then Some(s.reason) else None
  {
    assert [s][1..] == [];
  }

  lemma OverrideLookup(stored: seq<Segment>, newer: seq<Segment>, account: string)
    requires AllScanned(stored) && AllScanned(newer)
    ensures Lookup(Override(stored, newer), account) == Newer(stored, newer, account)
  {
    OverrideSorted(stored, newer);
  }

  /** Semicolons come off after spaces do, so a reason may keep a line break at its end;
      merging then loses it. */
  lemma MergeLosesLineBreak()
    ensures
      var raw := Some("Account A: x\n;");
      Parse(raw) == [Segment("A", "x\n")] && Parse(Merge(None, raw)) != Parse(raw)
  {
    hide Parse, Matches, Merge, MergePrints, Format, Override, ParseText;
    var raw := Some("Account A: x\n;");
    LineBreakStays();
    NothingStored(Parse(raw));
    MergeOverridesIff(None, raw);
    MergesNews(None, raw);
    assert EndsInSpace(Parse(raw)[0].reason);
  }

  lemma NothingStored(news: seq<Segment>)
    requires |news| == 1
    ensures Override(Parse(None), news) == news
  {
    assert news == [news[0]];
  }

  lemma LineBreakStays()
    ensures Parse(Some("Account A: x\n;")) == [Segment("A", "x\n")]
  {
    hide Matches, Strip, Upper, TrimEnd, Collect, HeaderFree, LabelChars;
    var reason, text := "x\n;", "Account A: x\n;";
    assert text == "Account " + "A" + ": " + reason;
    ShortIsHeaderFree(reason);
    LetterIsLabel();
    TaggedMatches("A", reason);
    EndsAreSolid(text);
    EndsAreSolid(reason);
    TrimsSemicolon();
    UpperLabelOk("A");
    CollectOne("A", reason);
  }

  lemma EndsAreSolid(t: string)
    requires t != "" && !IsSpace(t[0]) && !IsSpace(t[|t| - 1])
    ensures Strip(t) == t
  {
    NoSpaceToStrip(t);
  }

  lemma TrimsSemicolon()
    ensures TrimEnd("x\n;") == "x\n"
  {
    assert "x\n;"[..2] == "x\n";
  }

  lemma LetterIsLabel()
    ensures LabelChars("A") && Upper("A") == "A"
  {}

  lemma ShortIsHeaderFree(t: string)
    requires |t| < 7
    ensures HeaderFree(t)
  {}

  lemma MergesNews(existing: Option<string>, incoming: Option<string>)
    requires Parse(incoming) != []
    ensures MergePrints(existing, incoming)
  {
    ScannedIsNotEmpty(incoming);
  }
}
