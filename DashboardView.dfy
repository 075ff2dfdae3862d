/** The dashboard of the Vite variant (src/pages/Dashboard.tsx): the revenue
    of an application's approved payments and the number of its active
    subscriptions. */
module DashboardView {
  import opened Common
  import opened Types
  import opened Sequences

  /** `parseFloat(p.amount?.amount || '0')`: a missing amount counts as zero. */
  function AmountOf(p: Payment): real {
    if p.amount.Some? then p.amount.value else 0.0
  }

  predicate IsApproved(p: Payment) {
    p.status == Approved
  }

  /** `payments.filter(p => p.status === 'approved')`. */
  function ApprovedOnly(payments: seq<Payment>): (kept: seq<Payment>)
    ensures |kept| <= |payments|
    ensures forall i :: 0 <= i < |kept| ==> IsApproved(kept[i])
    decreases |payments|
  {
    if payments == [] then []
    else (if IsApproved(payments[0]) then [payments[0]] else []) + ApprovedOnly(payments[1..])
  }

  /** The test is the source's string comparison `p.status === 'approved'`. */
  lemma ApprovedIffWireApproved(p: Payment)
    ensures IsApproved(p) <==> p.status.Name() == "approved"
  {
  }

  /** The filter keeps a payment exactly when it is fetched and approved. */
  lemma {:induction false} ApprovedOnlyMembership(payments: seq<Payment>, p: Payment)
    ensures p in ApprovedOnly(payments) <==> p in payments && IsApproved(p)
    decreases |payments|
  {
    if payments != [] {
      ApprovedOnlyMembership(payments[1..], p);
      assert payments == [payments[0]] + payments[1..];
    }
  }

  /** The approved payments keep the fetched order. */
  lemma {:induction false} ApprovedOnlyIsSubsequence(payments: seq<Payment>)
    ensures IsSubsequence(ApprovedOnly(payments), payments)
    decreases |payments|
  {
    if payments != [] {
      ApprovedOnlyIsSubsequence(payments[1..]);
      var rest := ApprovedOnly(payments[1..]);
      if IsApproved(payments[0]) {
        assert ([payments[0]] + rest)[1..] == rest;
      } else {
        assert [] + rest == rest;
        SubsequenceOfTail(rest, payments[1..], payments[0]);
        assert [payments[0]] + payments[1..] == payments;
      }
    }
  }

  /** `.reduce((sum, p) => sum + amount(p), 0)` from the left. */
  function SumAmounts(payments: seq<Payment>): real
    decreases |payments|
  {
    if payments == [] then 0.0 else SumAmounts(payments[..|payments| - 1]) + AmountOf(payments[|payments| - 1])
  }

  function TotalRevenue(payments: seq<Payment>): real {
    SumAmounts(ApprovedOnly(payments))
  }

  lemma {:induction false} ApprovedOnlyAppend(a: seq<Payment>, b: seq<Payment>)
    ensures ApprovedOnly(a + b) == ApprovedOnly(a) + ApprovedOnly(b)
    decreases |a|
  {
    if a != [] {
      assert (a + b)[1..] == a[1..] + b;
      ApprovedOnlyAppend(a[1..], b);
    } else {
      assert a + b == b;
    }
  }

  lemma {:induction false} SumAmountsAppend(a: seq<Payment>, b: seq<Payment>)
    ensures SumAmounts(a + b) == SumAmounts(a) + SumAmounts(b)
    decreases |b|
  {
    if b == [] {
      assert a + b == a;
    } else {
      var c := b[..|b| - 1];
      assert (a + b)[..|a + b| - 1] == a + c;
      SumAmountsAppend(a, c);
    }
  }

  /** Adding a payment that is not approved leaves the revenue unchanged;
      adding an approved one adds its amount (zero when it has none). */
  lemma RevenueOfAppended(payments: seq<Payment>, p: Payment)
    ensures !IsApproved(p) ==> TotalRevenue(payments + [p]) == TotalRevenue(payments)
    ensures IsApproved(p) ==> TotalRevenue(payments + [p]) == TotalRevenue(payments) + AmountOf(p)
  {
    ApprovedOnlyAppend(payments, [p]);
    assert [p][1..] == [];
    SumAmountsAppend(ApprovedOnly(payments), ApprovedOnly([p]));
    if IsApproved(p) {
      assert ApprovedOnly([p]) == [p];
      assert [p][..0] == [];
    } else {
      assert ApprovedOnly([p]) == [];
    }
  }

  /** With no approved payment, the empty list included, the revenue is zero. */
  lemma {:induction false} RevenueWithoutApproved(payments: seq<Payment>)
    requires forall i :: 0 <= i < |payments| ==> !IsApproved(payments[i])
    ensures ApprovedOnly(payments) == [] && TotalRevenue(payments) == 0.0
    decreases |payments|
  {
    if payments != [] {
      RevenueWithoutApproved(payments[1..]);
      assert ApprovedOnly(payments) == [] + ApprovedOnly(payments[1..]);
    }
  }

  /** `subscriptions.filter(s => s.status === 'active').length`. */
  function ActiveSubscriptions(subscriptions: seq<Subscription>): (n: nat)
    ensures n <= |subscriptions|
    decreases |subscriptions|
  {
    if subscriptions == [] then 0
    else (if subscriptions[0].status == Active then 1 else 0) + ActiveSubscriptions(subscriptions[1..])
  }

  /** The count of a list is built one subscription at a time: none for the
      empty list, and one more exactly when an active subscription is added. */
  lemma {:induction false} ActiveSubscriptionsOfAppended(subscriptions: seq<Subscription>, s: Subscription)
    ensures ActiveSubscriptions([]) == 0
    ensures ActiveSubscriptions(subscriptions + [s])
         == ActiveSubscriptions(subscriptions) + (if s.status == Active then 1 else 0)
    decreases |subscriptions|
  {
    if subscriptions == [] {
      assert [] + [s] == [s];
      assert [s][1..] == [];
    } else {
      assert (subscriptions + [s])[1..] == subscriptions[1..] + [s];
      ActiveSubscriptionsOfAppended(subscriptions[1..], s);
    }
  }

  /** The counted test is the source's string comparison `s.status === 'active'`. */
  lemma ActiveIffWireActive(s: Subscription)
    ensures s.status == Active <==> s.status.Name() == "active"
  {
  }

  /** The count reaches the total exactly when every subscription is active. */
  lemma {:induction false} AllActiveIffCountIsTotal(subscriptions: seq<Subscription>)
    ensures ActiveSubscriptions(subscriptions) == |subscriptions| <==>
            forall i :: 0 <= i < |subscriptions| ==> subscriptions[i].status == Active
    decreases |subscriptions|
  {
    if subscriptions != [] {
      AllActiveIffCountIsTotal(subscriptions[1..]);
      var tail := subscriptions[1..];
      if forall i :: 0 <= i < |tail| ==> tail[i].status == Active {
        if subscriptions[0].status == Active {
          forall i | 0 <= i < |subscriptions| ensures subscriptions[i].status == Active {
            if i > 0 { assert subscriptions[i] == tail[i - 1]; }
          }
        }
      } else {
        var j :| 0 <= j < |tail| && tail[j].status != Active;
        assert subscriptions[j + 1] == tail[j];
      }
    }
  }
}
