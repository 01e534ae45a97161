/** Small text helpers, on ASCII letters and whitespace. */
module Text {
  predicate IsSpace(c: char) {
    c == ' ' || '\t' <= c <= '\r' || '\U{001c}' <= c <= '\U{001f}'
  }

  function UpperChar(c: char): char {
    if 'a' <= c <= 'z' then c - 'a' + 'A' else c
  }

  function Upper(t: string): (r: string)
    ensures |r| == |t| && forall i :: 0 <= i < |t| ==> r[i] == UpperChar(t[i])
  {
    if t == "" then "" else [UpperChar(t[0])] + Upper(t[1..])
  }

  function Digits(n: nat): string {
    if n < 10 then ['0' + n as char] else Digits(n / 10) + ['0' + (n % 10) as char]
  }

  function LStrip(t: string): (r: string)
    ensures |r| <= |t| && r == t[|t| - |r|..]
    ensures r != "" ==> !IsSpace(r[0])
    ensures forall i :: 0 <= i < |t| - |r| ==> IsSpace(t[i])
  {
    hide IsSpace;
    if t != "" && IsSpace(t[0]) then
      var r := LStrip(t[1..]);
      assert forall i :: 1 <= i < |t| ==> t[1..][i - 1] == t[i];
      r
    else t
  }

  function RStrip(t: string): (r: string)
    ensures r <= t
    ensures r != "" ==> !IsSpace(r[|r| - 1])
    ensures t != "" && !IsSpace(t[|t| - 1]) ==> r == t
    ensures t != "" && !IsSpace(t[0]) ==> r != ""
    ensures forall i :: |r| <= i < |t| ==> IsSpace(t[i])
  {
    hide IsSpace;
    if t != "" && IsSpace(t[|t| - 1]) then RStrip(t[..|t| - 1]) else t
  }

  function Strip(t: string): string {
    RStrip(LStrip(t))
  }

  predicate Blank(t: string) {
    Strip(t) == ""
  }

  predicate OnlySpaces(t: string) {
    forall i :: 0 <= i < |t| ==> IsSpace(t[i])
  }

  /** What stands from `i` to `j` is what is left of the text without white space around
      it. */
  predicate Core(t: string, i: nat, j: nat) {
    && i < j <= |t| && !IsSpace(t[i]) && !IsSpace(t[j - 1])
    && (forall k :: 0 <= k < i ==> IsSpace(t[k]))
    && (forall k :: j <= k < |t| ==> IsSpace(t[k]))
  }

  lemma StripIsCore(t: string)
    ensures OnlySpaces(t) ==> Strip(t) == ""
    ensures !OnlySpaces(t) ==> exists i: nat, j: nat :: Core(t, i, j) && Strip(t) == t[i..j]
  {
    hide IsSpace, LStrip, RStrip;
    var l := LStrip(t);
    var r := RStrip(l);
    if l != "" {
      var i, j := |t| - |l|, |t| - |l| + |r|;
      assert forall k :: 0 <= k < |l| ==> l[k] == t[i + k];
      assert forall k :: j <= k < |t| ==> l[k - i] == t[k];
      assert t[i] == l[0] && t[j - 1] == r[|r| - 1];
      assert r == l[..|r|] == t[i..j];
      assert Core(t, i, j);
    }
  }

  lemma BlankIff(t: string)
    ensures Blank(t) <==> OnlySpaces(t)
  {
    hide IsSpace, Strip;
    StripIsCore(t);
    if !OnlySpaces(t) {
      var i: nat, j: nat :| Core(t, i, j) && Strip(t) == t[i..j];
      assert |t[i..j]| == j - i;
    }
  }

  // ---- Words however spelled ----

  /** In upper case and without blanks. */
  function Squeezed(t: string): string {
    if t == "" then ""
    else if t[0] == ' ' then Squeezed(t[1..])
    else [UpperChar(t[0])] + Squeezed(t[1..])
  }

  /** The text is the upper-case word, blanks and letter case aside. */
  predicate Spells(t: string, word: string) {
    || (t == "" && word == "")
    || (t != "" && t[0] == ' ' && Spells(t[1..], word))
    || (t != "" && t[0] != ' ' && word != "" && word[0] in {t[0], UpperChar(t[0])} && !('a' <= word[0] <= 'z')
        && Spells(t[1..], word[1..]))
  }

  lemma {:induction false} SpellsIff(t: string, word: string)
    ensures Spells(t, word) <==> Squeezed(t) == word
  {
    if t != "" {
      if t[0] == ' ' {
        SpellsIff(t[1..], word);
      } else if word != "" {
        SpellsIff(t[1..], word[1..]);
        assert word == [word[0]] + word[1..];
      }
    }
  }

  // ---- Code point order ----

  predicate Less(a: string, b: string) {
    b != "" && (a == "" || a[0] < b[0] || (a[0] == b[0] && Less(a[1..], b[1..])))
  }

  lemma {:induction false} LessIsStrictTotal(a: string, b: string)
    ensures Less(a, b) ==> !Less(b, a) && a != b
    ensures Less(a, b) || Less(b, a) || a == b
  {
    if a != "" && b != "" && a[0] == b[0] {
      LessIsStrictTotal(a[1..], b[1..]);
      assert a == [a[0]] + a[1..] && b == [b[0]] + b[1..];
    }
  }

  /** A proper prefix is less, and otherwise the first difference decides. */
  lemma {:induction false} LessIff(a: string, b: string)
    ensures Less(a, b)
      <==> exists i :: 0 <= i <= |a| && i < |b| && a[..i] == b[..i] && (i == |a| || a[i] < b[i])
  {
    forall i | 0 < i <= |a| && i < |b| && a[..i] == b[..i] ensures a[0] == b[0] {
      assert a[..i][0] == b[..i][0];
    }
    if a != "" && b != "" && a[0] == b[0] {
      LessIff(a[1..], b[1..]);
      if Less(a, b) {
        var i :| 0 <= i <= |a| - 1 && i < |b| - 1 && a[1..][..i] == b[1..][..i] && (i == |a| - 1 || a[1..][i] < b[1..][i]);
        assert a[..i + 1] == [a[0]] + a[1..][..i] && b[..i + 1] == [b[0]] + b[1..][..i];
      }
      if i :| 0 <= i <= |a| && i < |b| && a[..i] == b[..i] && (i == |a| || a[i] < b[i]) {
        assert i > 0;
        assert a[1..][..i - 1] == a[..i][1..] && b[1..][..i - 1] == b[..i][1..];
      }
    } else if b != "" {
      assert a[..0] == b[..0];
    }
  }

  lemma {:induction false} LessTransitive(a: string, b: string, c: string)
    requires Less(a, b) && Less(b, c)
    ensures Less(a, c)
  {
    if a != "" && a[0] == b[0] == c[0] {
      LessTransitive(a[1..], b[1..], c[1..]);
    }
  }

  lemma {:induction false} LStripAppend(a: string, b: string)
    ensures LStrip(a) != "" ==> LStrip(a + b) == LStrip(a) + b
    ensures LStrip(a) == "" ==> LStrip(a + b) == LStrip(b)
  {
    if a == "" {
      assert a + b == b;
    } else if IsSpace(a[0]) {
      assert (a + b)[1..] == a[1..] + b;
      LStripAppend(a[1..], b);
    }
  }

  lemma {:induction false} RStripAppend(a: string, b: string)
    requires RStrip(b) != ""
    ensures RStrip(a + b) == a + RStrip(b)
  {
    if IsSpace(b[|b| - 1]) {
      assert (a + b)[..|a + b| - 1] == a + b[..|b| - 1];
      RStripAppend(a, b[..|b| - 1]);
    }
  }
}
