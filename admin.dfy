/** AdminView.tsx: user counts and the rows of the user table. */
module Admin {
  import opened Types

  /** `u.hasPaid` is truthy only when it is present and true. */
  predicate IsPremium(u: UserProfile) {
    u.hasPaid == Some(true)
  }

  /** `users.filter(u => u.hasPaid).length`. */
  function PremiumUsers(users: seq<UserProfile>): (n: nat)
    ensures n <= |users|
    ensures n == 0 <==> forall k :: 0 <= k < |users| ==> !IsPremium(users[k])
  {
    if users == [] then 0
    else
      var rest := PremiumUsers(users[1..]);
      assert forall k :: 1 <= k < |users| ==> users[k] == users[1..][k - 1];
      (if IsPremium(users[0]) then 1 else 0) + rest
  }

  /** An independent count of the users without a paid plan. */
  function FreeCount(users: seq<UserProfile>): nat {
    if users == [] then 0 else (if IsPremium(users[0]) then 0 else 1) + FreeCount(users[1..])
  }

  lemma {:induction false} PremiumAndFreeCover(users: seq<UserProfile>)
    ensures PremiumUsers(users) + FreeCount(users) == |users|
  {
    if users != [] {
      PremiumAndFreeCover(users[1..]);
    }
  }

  /** `freeUsers = totalUsers - premiumUsers`: never negative, and exactly the
      number of users without a paid plan. */
  function FreeUsers(users: seq<UserProfile>): (n: int)
    ensures n >= 0 && n == FreeCount(users)
    ensures n + PremiumUsers(users) == |users|
  {
    PremiumAndFreeCover(users);
    |users| - PremiumUsers(users)
  }

  /** A missing `hasPaid` counts as free, like an explicit `false`. */
  lemma MissingPaidIsFree(u: UserProfile)
    requires u.hasPaid == None || u.hasPaid == Some(false)
    ensures FreeCount([u]) == 1 && PremiumUsers([u]) == 0
  {
  }

  lemma {:induction false} PremiumUsersAppend(a: seq<UserProfile>, b: seq<UserProfile>)
    ensures PremiumUsers(a + b) == PremiumUsers(a) + PremiumUsers(b)
  {
    if a == [] {
      assert a + b == b;
    } else {
      assert (a + b)[1..] == a[1..] + b;
      PremiumUsersAppend(a[1..], b);
    }
  }

  /** One table row as shown. */
  datatype Row = Row(displayId: int, planLabel: string, statusLabel: string, phoneText: string)

  function PlanLabel(u: UserProfile): string {
    if IsPremium(u) then "Premium" else "Free Trial"
  }

  function StatusLabel(u: UserProfile): string {
    if IsPremium(u) then "Ativo" else "Inativo"
  }

  /** `user.phone || 'Nenhum telefone'`. */
  function PhoneText(u: UserProfile): string {
    if u.phone.Some? && u.phone.value != "" then u.phone.value else "Nenhum telefone"
  }

  /** The row for the user at position `idx`: its id is `idx + 1001`. */
  function RowOf(idx: nat, u: UserProfile): (r: Row)
    ensures r.displayId == idx + 1001
    ensures r.planLabel == "Premium" <==> IsPremium(u)
    ensures r.statusLabel == "Ativo" <==> IsPremium(u)
  {
    Row(idx + 1001, PlanLabel(u), StatusLabel(u), PhoneText(u))
  }

  /** `users.map((user, idx) => …)`: an empty list shows the empty-base notice instead. */
  function Rows(users: seq<UserProfile>): (r: seq<Row>)
    ensures |r| == |users|
    ensures forall i :: 0 <= i < |r| ==> r[i] == RowOf(i, users[i])
  {
    seq(|users|, i requires 0 <= i < |users| => RowOf(i, users[i]))
  }

  /** Display ids start at 1001, increase by one per row and are never repeated. */
  lemma DisplayIdsDistinct(users: seq<UserProfile>)
    ensures forall i :: 0 <= i < |users| ==> Rows(users)[i].displayId >= 1001
    ensures forall i, j :: 0 <= i < |users| && 0 <= j < |users| && i != j ==> Rows(users)[i].displayId != Rows(users)[j].displayId
  {
  }

  /** The plan and status labels depend on `hasPaid` alone. */
  lemma LabelsDependOnlyOnPaid(u: UserProfile, v: UserProfile, i: nat, j: nat)
    requires u.hasPaid == v.hasPaid
    ensures RowOf(i, u).planLabel == RowOf(j, v).planLabel && RowOf(i, u).statusLabel == RowOf(j, v).statusLabel
  {
  }

  /** Premium users are exactly the rows labelled "Premium". */
  lemma PremiumCountsPremiumRows(users: seq<UserProfile>)
    ensures PremiumUsers(users) == |set i | 0 <= i < |users| && Rows(users)[i].planLabel == "Premium"|
  {
    PremiumCountsPremiumIndices(users);
    var a := set i | 0 <= i < |users| && Rows(users)[i].planLabel == "Premium";
    var b := set i | 0 <= i < |users| && IsPremium(users[i]);
    assert a == b;
  }

  lemma {:induction false} PremiumCountsPremiumIndices(users: seq<UserProfile>)
    ensures PremiumUsers(users) == |set i | 0 <= i < |users| && IsPremium(users[i])|
  {
    if users != [] {
      var n := |users| - 1;
      var init := users[..n];
      PremiumCountsPremiumIndices(init);
      assert users == init + [users[n]];
      PremiumUsersAppend(init, [users[n]]);
      var s := set i | 0 <= i < n && IsPremium(init[i]);
      var t := set i | 0 <= i < |users| && IsPremium(users[i]);
      if IsPremium(users[n]) {
        assert t == s + {n};
      } else {
        assert t == s;
      }
    }
  }
}
