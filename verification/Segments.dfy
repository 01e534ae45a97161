/** Account labels with their reasons, kept in account order: the dictionary that is only
    looked up, overridden and printed sorted. */
module Segments {
  import opened Options
  import opened Text

  datatype Segment = Segment(account: string, reason: string)

  ghost predicate Sorted(segs: seq<Segment>) {
    forall i, j :: 0 <= i < j < |segs| ==> Less(segs[i].account, segs[j].account)
  }

  function Lookup(segs: seq<Segment>, account: string): Option<string> {
    if segs == [] then None
    else if segs[0].account == account then Some(segs[0].reason)
    else Lookup(segs[1..], account)
  }

  function Put(segs: seq<Segment>, s: Segment): seq<Segment> {
    if segs == [] then [s]
    else if segs[0].account == s.account then [s] + segs[1..]
    else if Less(s.account, segs[0].account) then [s] + segs
    else [segs[0]] + Put(segs[1..], s)
  }

  /** `over` wins label by label. */
  function Override(segs: seq<Segment>, over: seq<Segment>): seq<Segment> {
    if over == [] then segs else Put(Override(segs, over[..|over| - 1]), over[|over| - 1])
  }

  lemma {:induction false} LookupMember(segs: seq<Segment>, i: nat)
    requires Sorted(segs) && i < |segs|
    ensures Lookup(segs, segs[i].account) == Some(segs[i].reason)
  {
    if i > 0 {
      LessIsStrictTotal(segs[0].account, segs[i].account);
      LookupMember(segs[1..], i - 1);
    }
  }

  lemma {:induction false} LookupFinds(segs: seq<Segment>, account: string)
    requires Lookup(segs, account).Some?
    ensures Segment(account, Lookup(segs, account).value) in segs
  {
    if segs[0].account != account {
      LookupFinds(segs[1..], account);
    }
  }

  lemma {:induction false} LookupAbsent(segs: seq<Segment>, account: string)
    requires forall i :: 0 <= i < |segs| ==> segs[i].account != account
    ensures Lookup(segs, account) == None
  {
    if segs != [] {
      LookupAbsent(segs[1..], account);
    }
  }

  lemma {:induction false} PutMembers(segs: seq<Segment>, s: Segment)
    ensures forall x :: x in Put(segs, s) ==> x in segs || x == s
  {
    if segs != [] {
      PutMembers(segs[1..], s);
    }
  }

  lemma {:induction false} PutSorted(segs: seq<Segment>, s: Segment)
    requires Sorted(segs)
    ensures Sorted(Put(segs, s))
    ensures forall account :: Lookup(Put(segs, s), account) == if account == s.account then Some(s.reason) else Lookup(segs, account)
  {
    if segs == [] {
    } else if segs[0].account == s.account {
      assert ([s] + segs[1..])[1..] == segs[1..];
    } else if Less(s.account, segs[0].account) {
      assert ([s] + segs)[1..] == segs;
      forall j | 0 <= j < |segs| ensures Less(s.account, segs[j].account) {
        if j > 0 {
          LessTransitive(s.account, segs[0].account, segs[j].account);
        }
      }
    } else {
      PutSorted(segs[1..], s);
      PutMembers(segs[1..], s);
      LessIsStrictTotal(s.account, segs[0].account);
      var tail := Put(segs[1..], s);
      assert ([segs[0]] + tail)[1..] == tail;
      forall j | 0 <= j < |tail| ensures Less(segs[0].account, tail[j].account) {
        assert tail[j] in tail;
      }
    }
  }

  function Newer(segs: seq<Segment>, over: seq<Segment>, account: string): Option<string> {
    if Lookup(over, account).Some? then Lookup(over, account) else Lookup(segs, account)
  }

  lemma {:induction false} OverrideSorted(segs: seq<Segment>, over: seq<Segment>)
    requires Sorted(segs) && Sorted(over)
    ensures Sorted(Override(segs, over))
    ensures forall account :: Lookup(Override(segs, over), account) == Newer(segs, over, account)
  {
    if over != [] {
      var n := |over| - 1;
      OverrideSorted(segs, over[..n]);
      PutSorted(Override(segs, over[..n]), over[n]);
      forall account ensures Lookup(over, account) == if account == over[n].account then Some(over[n].reason) else Lookup(over[..n], account) {
        LookupLast(over, account);
      }
    }
  }

  lemma {:induction false} LookupLast(segs: seq<Segment>, account: string)
    requires Sorted(segs) && segs != []
    ensures var n := |segs| - 1;
      Lookup(segs, account) == if account == segs[n].account then Some(segs[n].reason) else Lookup(segs[..n], account)
  {
    var n := |segs| - 1;
    if n > 0 {
      LessIsStrictTotal(segs[0].account, segs[n].account);
      LookupLast(segs[1..], account);
      assert segs[1..][..n - 1] == segs[..n][1..];
    }
  }

  lemma OverrideMembers(segs: seq<Segment>, over: seq<Segment>)
    ensures forall x :: x in Override(segs, over) ==> x in segs || x in over
  {
    if over != [] {
      OverrideMembers(segs, over[..|over| - 1]);
      PutMembers(Override(segs, over[..|over| - 1]), over[|over| - 1]);
    }
  }

  /** Two sorted lists with the same lookups are the same list. */
  lemma {:induction false} SameLookups(a: seq<Segment>, b: seq<Segment>)
    requires Sorted(a) && Sorted(b) && forall account :: Lookup(a, account) == Lookup(b, account)
    ensures a == b
  {
    if a == [] || b == [] {
      assert a != [] ==> Lookup(a, a[0].account).Some?;
      assert b != [] ==> Lookup(b, b[0].account).Some?;
    } else {
      LookupFinds(a, b[0].account);
      LookupFinds(b, a[0].account);
      assert a[0].account == b[0].account by {
        var i :| 0 <= i < |a| && a[i].account == b[0].account;
        var j :| 0 <= j < |b| && b[j].account == a[0].account;
        LessIsStrictTotal(a[0].account, b[0].account);
      }
      forall account ensures Lookup(a[1..], account) == Lookup(b[1..], account) {
        if account == a[0].account {
          LookupAfterFirst(a);
          LookupAfterFirst(b);
        } else {
          assert Lookup(a, account) == Lookup(b, account);
        }
      }
      SameLookups(a[1..], b[1..]);
      assert a == [a[0]] + a[1..] && b == [b[0]] + b[1..];
      assert Lookup(a, a[0].account) == Lookup(b, a[0].account);
    }
  }

  lemma LookupAfterFirst(segs: seq<Segment>)
    requires Sorted(segs) && segs != []
    ensures Lookup(segs[1..], segs[0].account) == None
  {
    forall i | 1 <= i < |segs| ensures segs[i].account != segs[0].account {
      LessIsStrictTotal(segs[0].account, segs[i].account);
    }
    LookupAbsent(segs[1..], segs[0].account);
  }
}
