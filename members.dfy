/** The member list held by the main layout: the freeze toggle, the dashboard's
    derived values (active count, frozen-asset total, displayed frozen status) and the
    gating of the freeze control. */
module Members {
  import opened Types
  import Constants

  // ----- Freeze toggle -----

  /** One step of the toggle's map: flips the frozen flag of a member whose id matches. */
  function FlipIfMatch(m: Member, id: string): Member
  {
    if m.id == id then m.(isFrozen := !m.isFrozen) else m
  }

  /** The member list after toggling the freeze of `id`: same length and order, every
      member whose id matches has its frozen flag negated, and nothing else changes. */
  function ToggledFreeze(ms: seq<Member>, id: string): (r: seq<Member>)
    ensures |r| == |ms|
    ensures forall i :: 0 <= i < |ms| ==>
      r[i].id == ms[i].id && r[i].name == ms[i].name &&
      r[i].balance == ms[i].balance && r[i].lastActive == ms[i].lastActive
    ensures forall i :: 0 <= i < |ms| ==>
      r[i].isFrozen == (if ms[i].id == id then !ms[i].isFrozen else ms[i].isFrozen)
  {
    if ms == [] then [] else [FlipIfMatch(ms[0], id)] + ToggledFreeze(ms[1..], id)
  }

  /** Toggling the same id twice gives back the original list. */
  lemma ToggleTwiceRestores(ms: seq<Member>, id: string)
    ensures ToggledFreeze(ToggledFreeze(ms, id), id) == ms
  {
    var r := ToggledFreeze(ToggledFreeze(ms, id), id);
    forall i | 0 <= i < |ms| ensures r[i] == ms[i] {
      SameFieldsSameMember(r[i], ms[i]);
    }
  }

  /** Toggling an id that no member has leaves the list unchanged. */
  lemma ToggleUnknownIdIsNoop(ms: seq<Member>, id: string)
    requires forall i :: 0 <= i < |ms| ==> ms[i].id != id
    ensures ToggledFreeze(ms, id) == ms
  {
    var r := ToggledFreeze(ms, id);
    forall i | 0 <= i < |ms| ensures r[i] == ms[i] {
      SameFieldsSameMember(r[i], ms[i]);
    }
  }

  lemma SameFieldsSameMember(a: Member, b: Member)
    requires a.id == b.id && a.name == b.name && a.balance == b.balance
    requires a.isFrozen == b.isFrozen && a.lastActive == b.lastActive
    ensures a == b
  {
  }

  // ----- Dashboard derived values -----

  /** The members whose own flag is unfrozen, in list order (see UnfrozenAppend). */
  function Unfrozen(ms: seq<Member>): (r: seq<Member>)
    ensures forall m :: m in r ==> m in ms && !m.isFrozen
    ensures forall m :: m in ms && !m.isFrozen ==> m in r
  {
    if ms == [] then []
    else if ms[0].isFrozen then Unfrozen(ms[1..])
    else [ms[0]] + Unfrozen(ms[1..])
  }

  /** The members whose own flag is frozen, in list order (see FrozenAppend). */
  function FrozenMembers(ms: seq<Member>): (r: seq<Member>)
    ensures forall m :: m in r ==> m in ms && m.isFrozen
    ensures forall m :: m in ms && m.isFrozen ==> m in r
  {
    if ms == [] then []
    else if ms[0].isFrozen then [ms[0]] + FrozenMembers(ms[1..])
    else FrozenMembers(ms[1..])
  }

  /** The unfrozen filter distributes over concatenation, so it keeps its members in list order. */
  lemma {:induction false} UnfrozenAppend(a: seq<Member>, b: seq<Member>)
    ensures Unfrozen(a + b) == Unfrozen(a) + Unfrozen(b)
  {
    if a == [] {
      assert a + b == b;
    } else {
      assert (a + b)[0] == a[0] && (a + b)[1..] == a[1..] + b;
      UnfrozenAppend(a[1..], b);
      if !a[0].isFrozen {
        assert Unfrozen(a + b) == [a[0]] + Unfrozen(a[1..] + b);
      }
    }
  }

  /** The frozen filter distributes over concatenation, so it keeps its members in list order. */
  lemma {:induction false} FrozenAppend(a: seq<Member>, b: seq<Member>)
    ensures FrozenMembers(a + b) == FrozenMembers(a) + FrozenMembers(b)
  {
    if a == [] {
      assert a + b == b;
    } else {
      assert (a + b)[0] == a[0] && (a + b)[1..] == a[1..] + b;
      FrozenAppend(a[1..], b);
      if a[0].isFrozen {
        assert FrozenMembers(a + b) == [a[0]] + FrozenMembers(a[1..] + b);
      }
    }
  }

  /** The sum of the balances of a list (the dashboard's reduce, starting from 0). */
  function SumBalances(ms: seq<Member>): int
  {
    if ms == [] then 0 else ms[0].balance + SumBalances(ms[1..])
  }

  /** The "Active Members" figure: the number of members not individually frozen. */
  function ActiveCount(ms: seq<Member>): nat
  {
    |Unfrozen(ms)|
  }

  /** The "Frozen Assets" figure: the total balance of individually frozen members, in cents. */
  function FrozenAssets(ms: seq<Member>): int
  {
    SumBalances(FrozenMembers(ms))
  }

  /** How the two figures decompose over the first member of a list. */
  lemma FiguresOfCons(x: Member, s: seq<Member>)
    ensures ActiveCount([x] + s) == (if x.isFrozen then 0 else 1) + ActiveCount(s)
    ensures FrozenAssets([x] + s) == (if x.isFrozen then x.balance else 0) + FrozenAssets(s)
  {
    var xs := [x] + s;
    assert xs[0] == x && xs[1..] == s;
    if x.isFrozen {
      var f := [x] + FrozenMembers(s);
      assert f[0] == x && f[1..] == FrozenMembers(s);
    }
  }

  /** Every member is counted either as active or as frozen. */
  lemma {:induction false} ActivePlusFrozenIsAll(ms: seq<Member>)
    ensures ActiveCount(ms) + |FrozenMembers(ms)| == |ms|
  {
    if ms != [] {
      ActivePlusFrozenIsAll(ms[1..]);
    }
  }

  /** With non-negative balances the frozen total lies between 0 and the total balance. */
  lemma {:induction false} FrozenAssetsBounded(ms: seq<Member>)
    requires forall i :: 0 <= i < |ms| ==> ms[i].balance >= 0
    ensures 0 <= FrozenAssets(ms) <= SumBalances(ms)
  {
    if ms != [] {
      FrozenAssetsBounded(ms[1..]);
      assert ms == [ms[0]] + ms[1..];
      FiguresOfCons(ms[0], ms[1..]);
    }
  }

  /** Member ids are pairwise distinct. */
  predicate DistinctIds(ms: seq<Member>)
  {
    forall i, j :: 0 <= i < j < |ms| ==> ms[i].id != ms[j].id
  }

  /** Toggling the member at position k (ids being distinct) moves exactly that member
      between the active count and the frozen total. */
  lemma {:induction false} ToggleMovesOneMember(ms: seq<Member>, k: nat)
    requires DistinctIds(ms) && k < |ms|
    ensures var r := ToggledFreeze(ms, ms[k].id);
      if ms[k].isFrozen then
        ActiveCount(r) == ActiveCount(ms) + 1 && FrozenAssets(r) == FrozenAssets(ms) - ms[k].balance
      else
        ActiveCount(r) + 1 == ActiveCount(ms) && FrozenAssets(r) == FrozenAssets(ms) + ms[k].balance
  {
    var id := ms[k].id;
    var tail := ToggledFreeze(ms[1..], id);
    var r := ToggledFreeze(ms, id);
    assert r == [FlipIfMatch(ms[0], id)] + tail;
    assert ms == [ms[0]] + ms[1..];
    FiguresOfCons(ms[0], ms[1..]);
    FiguresOfCons(FlipIfMatch(ms[0], id), tail);
    if k == 0 {
      forall i | 0 <= i < |ms[1..]| ensures ms[1..][i].id != id {
        assert ms[1..][i] == ms[i + 1];
      }
      ToggleUnknownIdIsNoop(ms[1..], id);
    } else {
      assert DistinctIds(ms[1..]) by {
        forall i, j | 0 <= i < j < |ms[1..]| ensures ms[1..][i].id != ms[1..][j].id {
          assert ms[1..][i] == ms[i + 1] && ms[1..][j] == ms[j + 1];
        }
      }
      assert ms[1..][k - 1] == ms[k];
      assert ms[0].id != id;
      ToggleMovesOneMember(ms[1..], k - 1);
    }
  }

  /** The status shown for a member: the global lock overrides the member's own flag. */
  function EffectiveFrozen(isSystemLocked: bool, m: Member): (frozen: bool)
    ensures isSystemLocked ==> frozen
    ensures !isSystemLocked ==> frozen == m.isFrozen
  {
    isSystemLocked || m.isFrozen
  }

  /** A figure on the dashboard: a number, or the notice shown in its place. */
  datatype StatValue = Figure(n: int) | Notice(text: string)

  /** The "Active Members" card. */
  function ActiveMembersStat(ms: seq<Member>, isSystemLocked: bool): (v: StatValue)
    ensures v.Notice? <==> isSystemLocked
    ensures v.Figure? ==> v.n == ActiveCount(ms)
  {
    if isSystemLocked then Notice("NO ACCESS") else Figure(ActiveCount(ms))
  }

  /** The "Frozen Assets" card. */
  function FrozenAssetsStat(ms: seq<Member>, isSystemLocked: bool): (v: StatValue)
    ensures v.Notice? <==> isSystemLocked
    ensures v.Figure? ==> v.n == FrozenAssets(ms)
  {
    if isSystemLocked then Notice("ALL FUNDS FROZEN") else Figure(FrozenAssets(ms))
  }

  // ----- Freeze control gating (a view-layer guard; the toggle itself checks nothing) -----

  /** The freeze button is rendered only for the ADMIN role. */
  predicate FreezeControlShown(role: UserRole)
  {
    role == ADMIN
  }

  /** The rendered freeze button is disabled while the system is locked. */
  predicate FreezeControlEnabled(isSystemLocked: bool)
  {
    !isSystemLocked
  }

  /** The member list after a click on member `id`'s freeze button on the dashboard:
      only an enabled, rendered button reaches the toggle. */
  function FreezeClick(role: UserRole, isSystemLocked: bool, ms: seq<Member>, id: string): (r: seq<Member>)
    ensures role != ADMIN ==> r == ms
    ensures isSystemLocked ==> r == ms
    ensures role == ADMIN && !isSystemLocked ==> r == ToggledFreeze(ms, id)
  {
    if FreezeControlShown(role) && FreezeControlEnabled(isSystemLocked) then ToggledFreeze(ms, id) else ms
  }

  // ----- The initial list -----

  /** A list with no frozen member has an empty frozen sub-list. */
  lemma {:induction false} NoneFrozen(ms: seq<Member>)
    requires forall i :: 0 <= i < |ms| ==> !ms[i].isFrozen
    ensures FrozenMembers(ms) == []
  {
    if ms != [] {
      NoneFrozen(ms[1..]);
    }
  }

  /** When the member at position k is the only frozen one, the frozen sub-list is that
      member alone, every other member counts as active, and its balance is the frozen total. */
  lemma {:induction false} OnlyOneFrozen(ms: seq<Member>, k: nat)
    requires k < |ms|
    requires forall i :: 0 <= i < |ms| ==> (ms[i].isFrozen <==> i == k)
    ensures FrozenMembers(ms) == [ms[k]]
    ensures ActiveCount(ms) == |ms| - 1
    ensures FrozenAssets(ms) == ms[k].balance
  {
    if k == 0 {
      NoneFrozen(ms[1..]);
    } else {
      assert forall i :: 0 <= i < |ms[1..]| ==> (ms[1..][i].isFrozen <==> i == k - 1);
      OnlyOneFrozen(ms[1..], k - 1);
    }
    ActivePlusFrozenIsAll(ms);
    assert SumBalances([ms[k]]) == ms[k].balance + SumBalances([]);
  }

  /** On the initial list four members are active and only M-902's 890000 cents are frozen. */
  lemma InitialDashboard()
    ensures DistinctIds(Constants.MockMembers())
    ensures FrozenMembers(Constants.MockMembers()) == [Constants.MockMembers()[2]]
    ensures Constants.MockMembers()[2].id == "M-902"
    ensures ActiveCount(Constants.MockMembers()) == 4
    ensures FrozenAssets(Constants.MockMembers()) == 890000
  {
    var ms := Constants.MockMembers();
    Constants.MemberIdsDistinct();
    assert forall i :: 0 <= i < |ms| ==> (ms[i].isFrozen <==> i == 2);
    OnlyOneFrozen(ms, 2);
  }

  // ----- The main layout's member state -----

  /** The main layout's member list, which starts as the fixture and is changed only by
      the freeze toggle. */
  class MainLayout {
    var members: seq<Member>

    constructor ()
      ensures members == Constants.MockMembers()
    {
      members := Constants.MockMembers();
    }

    /** The toggle handler, which performs no role or lock check of its own. */
    method ToggleMemberFreeze(id: string)
      modifies this
      ensures members == ToggledFreeze(old(members), id)
    {
      members := ToggledFreeze(members, id);
    }
  }
}
