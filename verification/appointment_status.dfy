/**
 * The lifecycle states of an appointment (the enum Appointment.AppointmentStatus):
 * a closed, ordered set of nine constants, each built with a display name and
 * two facets, plus the static filter over all constants and its two stock predicates.
 */
module AppointmentStatuses {

  /** The nine states, in the order the enum declares them. */
  datatype AppointmentStatus =
    | Scheduled
    | Rescheduled
    | WalkIn
    | Cancelled
    | Waiting
    | InConsultation
    | Completed
    | Missed
    | CancelledAndNeedsReschedule

  /** The arguments each constant is constructed with. */
  datatype StatusData = StatusData(name: string, cancelled: bool, active: bool)

  /**
   * The constant table: display name, `cancelled`, `active`, as each constant
   * passes them to the enum's private constructor. No entry is both cancelled
   * and active, and every display name is non-empty.
   */
  function Data(s: AppointmentStatus): (r: StatusData)
    ensures !(r.cancelled && r.active)
    ensures |r.name| > 0
  {
    match s
    case Scheduled => StatusData("Scheduled", false, false)
    case Rescheduled => StatusData("Rescheduled", false, false)
    case WalkIn => StatusData("Walk-In", false, true)
    case Cancelled => StatusData("Cancelled", true, false)
    case Waiting => StatusData("Waiting", false, true)
    case InConsultation => StatusData("In-Consultation", false, true)
    case Completed => StatusData("Completed", false, false)
    case Missed => StatusData("Missed", false, false)
    case CancelledAndNeedsReschedule => StatusData("Cancelled and Needs Reschedule", true, false)
  }

  /** values(): every constant, in declaration order. */
  function Values(): (r: seq<AppointmentStatus>)
    ensures |r| == 9
  {
    [Scheduled, Rescheduled, WalkIn, Cancelled, Waiting,
     InConsultation, Completed, Missed, CancelledAndNeedsReschedule]
  }

  /** ordinal(): the position of a constant in the declaration. */
  function Ordinal(s: AppointmentStatus): (r: nat)
    ensures r < |Values()| && Values()[r] == s
  {
    match s
    case Scheduled => 0
    case Rescheduled => 1
    case WalkIn => 2
    case Cancelled => 3
    case Waiting => 4
    case InConsultation => 5
    case Completed => 6
    case Missed => 7
    case CancelledAndNeedsReschedule => 8
  }

  /** getName(). */
  function Name(s: AppointmentStatus): (r: string)
    ensures |r| > 0
  {
    Data(s).name
  }

  /** toString() reports the display name. */
  function ToString(s: AppointmentStatus): (r: string)
    ensures r == Name(s)
  {
    Data(s).name
  }

  /** isCancelled(): exactly the two cancelled variants, as the field's documentation lists. */
  function IsCancelled(s: AppointmentStatus): (r: bool)
    ensures r <==> s == Cancelled || s == CancelledAndNeedsReschedule
  {
    Data(s).cancelled
  }

  /**
   * isActive(): patient checked in and present; exactly WalkIn, Waiting and
   * InConsultation, as the field's documentation lists. No active status is cancelled.
   */
  function IsActive(s: AppointmentStatus): (r: bool)
    ensures r <==> s == WalkIn || s == Waiting || s == InConsultation
    ensures r ==> !IsCancelled(s)
  {
    Data(s).active
  }

  /** The display name identifies the status: the nine names are pairwise distinct. */
  lemma NameIdentifiesStatus(a: AppointmentStatus, b: AppointmentStatus)
    ensures Name(a) == Name(b) <==> a == b
  {
  }

  /** cancelledPredicate: selects the statuses whose `cancelled` facet is set. */
  function CancelledPredicate(s: AppointmentStatus): (r: bool)
    ensures r <==> s == Cancelled || s == CancelledAndNeedsReschedule
  {
    IsCancelled(s)
  }

  /** notCancelledPredicate: the complement of cancelledPredicate. */
  function NotCancelledPredicate(s: AppointmentStatus): (r: bool)
    ensures r <==> !CancelledPredicate(s)
  {
    !IsCancelled(s)
  }

  // ---------------------------------------------------------------------------
  // Specification of filter

  /** The elements of `s` that satisfy `p`, in the order they appear in `s`. */
  function Select(p: AppointmentStatus -> bool, s: seq<AppointmentStatus>): seq<AppointmentStatus>
  {
    if |s| == 0 then []
    else if p(s[0]) then [s[0]] + Select(p, s[1..])
    else Select(p, s[1..])
  }

  /** Strictly increasing ordinals: declaration order, hence no duplicates. */
  ghost predicate InDeclarationOrder(r: seq<AppointmentStatus>)
  {
    forall i, j :: 0 <= i < j < |r| ==> Ordinal(r[i]) < Ordinal(r[j])
  }

  ghost predicate NoDuplicates(r: seq<AppointmentStatus>)
  {
    forall i, j :: 0 <= i < j < |r| ==> r[i] != r[j]
  }

  /** `r` is obtained from `s` by deleting elements. */
  ghost predicate IsSubsequence(r: seq<AppointmentStatus>, s: seq<AppointmentStatus>)
    decreases |s|
  {
    |r| == 0 ||
    (|s| > 0 && ((r[0] == s[0] && IsSubsequence(r[1..], s[1..])) || IsSubsequence(r, s[1..])))
  }

  /** values() lists each constant at its ordinal. */
  lemma ValuesInDeclarationOrder()
    ensures forall i :: 0 <= i < |Values()| ==> Ordinal(Values()[i]) == i
    ensures InDeclarationOrder(Values())
  {
  }

  /** Strictly increasing ordinals rule out repeats. */
  lemma DeclarationOrderHasNoDuplicates(r: seq<AppointmentStatus>)
    requires InDeclarationOrder(r)
    ensures NoDuplicates(r)
  {
  }

  /** Select keeps exactly the members of `s` that satisfy `p`. */
  lemma {:induction false} SelectMembers(p: AppointmentStatus -> bool, s: seq<AppointmentStatus>, x: AppointmentStatus)
    ensures x in Select(p, s) <==> x in s && p(x)
    decreases |s|
  {
    if |s| > 0 {
      SelectMembers(p, s[1..], x);
      assert s == [s[0]] + s[1..];
    }
  }

  /** Select only deletes. */
  lemma {:induction false} SelectIsSubsequence(p: AppointmentStatus -> bool, s: seq<AppointmentStatus>)
    ensures IsSubsequence(Select(p, s), s)
    decreases |s|
  {
    if |s| > 0 {
      SelectIsSubsequence(p, s[1..]);
      var r := Select(p, s);
      if p(s[0]) {
        assert r[0] == s[0] && r[1..] == Select(p, s[1..]);
      }
    }
  }

  /** Select of a list in declaration order is in declaration order. */
  lemma {:induction false} SelectKeepsOrder(p: AppointmentStatus -> bool, s: seq<AppointmentStatus>)
    requires InDeclarationOrder(s)
    ensures InDeclarationOrder(Select(p, s))
    decreases |s|
  {
    if |s| > 0 {
      var t := Select(p, s[1..]);
      TailInDeclarationOrder(s);
      SelectKeepsOrder(p, s[1..]);
      if p(s[0]) {
        var r := [s[0]] + t;
        forall i, j | 0 <= i < j < |r| ensures Ordinal(r[i]) < Ordinal(r[j]) {
          if i == 0 {
            SelectMembers(p, s[1..], r[j]);
            var k :| 0 <= k < |s[1..]| && s[1..][k] == r[j];
            assert s[k + 1] == r[j];
          } else {
            assert r[i] == t[i - 1] && r[j] == t[j - 1];
          }
        }
      }
    }
  }

  /** Selecting by `p` and by its complement splits `s`. */
  lemma {:induction false} SelectPartition(p: AppointmentStatus -> bool, q: AppointmentStatus -> bool, s: seq<AppointmentStatus>)
    requires forall x :: q(x) == !p(x)
    ensures multiset(Select(p, s)) + multiset(Select(q, s)) == multiset(s)
    decreases |s|
  {
    if |s| > 0 {
      SelectPartition(p, q, s[1..]);
      assert s == [s[0]] + s[1..];
    }
  }

  /** Two sequences in declaration order with the same elements are equal. */
  lemma {:induction false} OrderedUnique(a: seq<AppointmentStatus>, b: seq<AppointmentStatus>)
    requires InDeclarationOrder(a) && InDeclarationOrder(b)
    requires forall x :: x in a <==> x in b
    ensures a == b
    decreases |a|
  {
    assert |a| > 0 ==> a[0] in b;
    assert |b| > 0 ==> b[0] in a;
    if |a| > 0 {
      var i :| 0 <= i < |a| && a[i] == b[0];
      var j :| 0 <= j < |b| && b[j] == a[0];
      assert a[0] == b[0];
      TailInDeclarationOrder(a);
      TailInDeclarationOrder(b);
      forall x ensures x in a[1..] <==> x in b[1..] {
        TailMembers(a, x);
        TailMembers(b, x);
      }
      OrderedUnique(a[1..], b[1..]);
      assert a == [a[0]] + a[1..] && b == [b[0]] + b[1..];
    }
  }

  /** Dropping the head keeps declaration order. */
  lemma TailInDeclarationOrder(a: seq<AppointmentStatus>)
    requires InDeclarationOrder(a) && |a| > 0
    ensures InDeclarationOrder(a[1..])
  {
    forall k, l | 0 <= k < l < |a[1..]| ensures Ordinal(a[1..][k]) < Ordinal(a[1..][l]) {
      assert a[1..][k] == a[k + 1] && a[1..][l] == a[l + 1];
    }
  }

  /** In a sequence in declaration order, the tail holds everything but the head. */
  lemma TailMembers(a: seq<AppointmentStatus>, x: AppointmentStatus)
    requires InDeclarationOrder(a) && |a| > 0
    ensures x in a[1..] <==> x in a && x != a[0]
  {
    if x in a[1..] {
      var k :| 0 <= k < |a[1..]| && a[1..][k] == x;
      assert Ordinal(a[0]) < Ordinal(a[k + 1]);
    }
    if x in a && x != a[0] {
      var k :| 0 <= k < |a| && a[k] == x;
      assert a[1..][k - 1] == x;
    }
  }

  /** One step of Select over a suffix. */
  lemma SelectAt(p: AppointmentStatus -> bool, s: seq<AppointmentStatus>, i: nat)
    requires i < |s|
    ensures Select(p, s[i..]) == (if p(s[i]) then [s[i]] else []) + Select(p, s[i + 1..])
  {
    assert s[i..][0] == s[i] && s[i..][1..] == s[i + 1..];
  }

  /** Removing a rejected element at i leaves the prefix and the selection of the rest alone. */
  lemma RemoveRejected(p: AppointmentStatus -> bool, s: seq<AppointmentStatus>, i: nat)
    requires i < |s| && !p(s[i])
    ensures var t := s[..i] + s[i + 1..];
      t[..i] + Select(p, t[i..]) == s[..i] + Select(p, s[i..])
  {
    var t := s[..i] + s[i + 1..];
    assert t[..i] == s[..i] && t[i..] == s[i + 1..];
    SelectAt(p, s, i);
  }

  /** Stepping past an accepted element at i moves it from the selection into the prefix. */
  lemma KeepAccepted(p: AppointmentStatus -> bool, s: seq<AppointmentStatus>, i: nat)
    requires i < |s| && p(s[i])
    ensures s[..i + 1] + Select(p, s[i + 1..]) == s[..i] + Select(p, s[i..])
  {
    assert s[..i + 1] == s[..i] + [s[i]];
    SelectAt(p, s, i);
  }

  /**
   * The result of filter is characterised without reference to how it is built:
   * a sequence equals Select(p, Values()) exactly when it is in declaration
   * order and holds precisely the statuses satisfying p.
   */
  lemma FilterCharacterization(p: AppointmentStatus -> bool, r: seq<AppointmentStatus>)
    ensures r == Select(p, Values()) <==>
              InDeclarationOrder(r) && forall x :: x in r <==> p(x)
  {
    var f := Select(p, Values());
    ValuesInDeclarationOrder();
    SelectKeepsOrder(p, Values());
    forall x ensures x in f <==> p(x) {
      assert Values()[Ordinal(x)] == x;
      SelectMembers(p, Values(), x);
    }
    if InDeclarationOrder(r) && forall x :: x in r <==> p(x) {
      OrderedUnique(r, f);
    }
  }

  /** filter(cancelledPredicate) yields the two cancelled statuses, in declaration order. */
  lemma CancelledFilter()
    ensures Select(CancelledPredicate, Values()) == [Cancelled, CancelledAndNeedsReschedule]
  {
    var r := [Cancelled, CancelledAndNeedsReschedule];
    assert InDeclarationOrder(r);
    FilterCharacterization(CancelledPredicate, r);
  }

  /** filter(notCancelledPredicate) yields the other seven, in declaration order. */
  lemma NotCancelledFilter()
    ensures Select(NotCancelledPredicate, Values())
         == [Scheduled, Rescheduled, WalkIn, Waiting, InConsultation, Completed, Missed]
  {
    var r := [Scheduled, Rescheduled, WalkIn, Waiting, InConsultation, Completed, Missed];
    assert InDeclarationOrder(r);
    forall x ensures x in r <==> NotCancelledPredicate(x) {
      assert x !in r ==> x == Cancelled || x == CancelledAndNeedsReschedule;
    }
    FilterCharacterization(NotCancelledPredicate, r);
  }

  /**
   * The two stock predicates split the statuses: their filters are disjoint and
   * together hold each of the nine statuses exactly once.
   */
  lemma CancelledSplit()
    ensures multiset(Select(CancelledPredicate, Values())) + multiset(Select(NotCancelledPredicate, Values()))
         == multiset(Values())
    ensures forall x :: x in Select(CancelledPredicate, Values()) <==> x !in Select(NotCancelledPredicate, Values())
  {
    SelectPartition(CancelledPredicate, NotCancelledPredicate, Values());
    forall x ensures x in Select(CancelledPredicate, Values()) <==> x !in Select(NotCancelledPredicate, Values()) {
      assert Values()[Ordinal(x)] == x;
      SelectMembers(CancelledPredicate, Values(), x);
      SelectMembers(NotCancelledPredicate, Values(), x);
    }
  }

  // ---------------------------------------------------------------------------
  // filter

  /**
   * filter(predicate): copy values() into a fresh list, then walk it and remove,
   * in place, every element the predicate rejects.
   */
  method Filter(p: AppointmentStatus -> bool) returns (statuses: seq<AppointmentStatus>)
    ensures statuses == Select(p, Values())
    ensures forall x :: x in statuses <==> p(x)
    ensures InDeclarationOrder(statuses)
  {
    statuses := Values();
    var i := 0;
    while i < |statuses|
      invariant i <= |statuses|
      invariant statuses[..i] + Select(p, statuses[i..]) == Select(p, Values())
      decreases |statuses| - i
    {
      if !p(statuses[i]) {
        RemoveRejected(p, statuses, i);
        statuses := statuses[..i] + statuses[i + 1..];
      } else {
        KeepAccepted(p, statuses, i);
        i := i + 1;
      }
    }
    assert statuses[..i] == statuses && statuses[i..] == [];
    FilterCharacterization(p, statuses);
  }

  /** The filter result has no duplicates and is a subsequence of values(). */
  lemma FilterShape(p: AppointmentStatus -> bool)
    ensures NoDuplicates(Select(p, Values()))
    ensures IsSubsequence(Select(p, Values()), Values())
  {
    FilterCharacterization(p, Select(p, Values()));
    DeclarationOrderHasNoDuplicates(Select(p, Values()));
    SelectIsSubsequence(p, Values());
  }
}
