/** The team tab: members, their confirmation and payment, and the team statistics. */
module Team {
  import opened Wrappers
  import opened Lists
  import opened Model
  import opened Budget

  /** The add-member form; every field may be unset. */
  datatype MemberForm = MemberForm(
    name: Option<string>,
    role: Option<string>,
    contact: Option<string>,
    confirmed: Option<bool>,
    rate: Option<real>,
    paymentStatus: Option<PaymentStatus>)

  /** A partial member whose set fields overwrite a member's (`{ ...member, ...updates }`). */
  datatype MemberPatch = MemberPatch(
    id: Option<string>,
    name: Option<string>,
    role: Option<string>,
    contact: Option<string>,
    confirmed: Option<bool>,
    rate: Option<real>,
    paymentStatus: Option<PaymentStatus>)

  const NO_CHANGES: MemberPatch := MemberPatch(None, None, None, None, None, None, None)

  function MemberId(m: TeamMember): string { m.id }

  /** `x` is set and non-empty: JavaScript truthiness of an optional text. */
  predicate Filled(x: Option<string>) {
    x.Some? && x.value != ""
  }

  /** `rate || 0`: an unset or zero rate becomes 0. */
  function RateOr0(rate: Option<real>): real {
    if rate.Some? then rate.value else 0.0
  }

  /**
   * `handleAddMember`: refused unless name, role and contact are all
   * filled; otherwise the member is appended with `confirmed` false, rate 0
   * and payment "not applicable" where the form leaves them unset, and the
   * project is stamped with `now`.
   */
  function AddMember(p: Project, form: MemberForm, id: string, now: int): (r: Project)
    ensures !(Filled(form.name) && Filled(form.role) && Filled(form.contact)) ==> r == p
    ensures Filled(form.name) && Filled(form.role) && Filled(form.contact) ==>
      && r == p.(team := r.team, updatedAt := now)
      && |r.team| == |p.team| + 1
      && r.team[..|p.team|] == p.team
      && r.team[|p.team|] == TeamMember(id, form.name.value, form.role.value, form.contact.value,
           form.confirmed.GetOr(false), Some(RateOr0(form.rate)), Some(form.paymentStatus.GetOr(NotApplicable)))
  {
    if Filled(form.name) && Filled(form.role) && Filled(form.contact) then
      var member := TeamMember(id, form.name.value, form.role.value, form.contact.value,
        form.confirmed.GetOr(false), Some(RateOr0(form.rate)), Some(form.paymentStatus.GetOr(NotApplicable)));
      p.(team := p.team + [member], updatedAt := now)
    else p
  }

  /** Adding a member raises the total cost by the member's rate. */
  lemma AddMemberCost(p: Project, form: MemberForm, id: string, now: int)
    requires Filled(form.name) && Filled(form.role) && Filled(form.contact)
    ensures TotalCost(AddMember(p, form, id, now).team) == TotalCost(p.team) + RateOr0(form.rate)
  {
    var r := AddMember(p, form, id, now);
    assert r.team == p.team + [r.team[|p.team|]];
    TeamCostsAppend(p.team, r.team[|p.team|]);
  }

  /** `{ ...member, ...updates }`. */
  function Merge(m: TeamMember, patch: MemberPatch): (r: TeamMember)
    ensures patch == NO_CHANGES ==> r == m
    ensures Follows(r.id, m.id, patch.id) && Follows(r.name, m.name, patch.name)
         && Follows(r.role, m.role, patch.role) && Follows(r.contact, m.contact, patch.contact)
    ensures patch.confirmed.Some? ==> r.confirmed == patch.confirmed.value
    ensures patch.confirmed.None? ==> r.confirmed == m.confirmed
    ensures FollowsOptional(r.rate, m.rate, patch.rate)
    ensures FollowsOptional(r.paymentStatus, m.paymentStatus, patch.paymentStatus)
  {
    TeamMember(Override(m.id, patch.id), Override(m.name, patch.name), Override(m.role, patch.role),
      Override(m.contact, patch.contact), Override(m.confirmed, patch.confirmed),
      if patch.rate.Some? then patch.rate else m.rate,
      if patch.paymentStatus.Some? then patch.paymentStatus else m.paymentStatus)
  }

  /** Merging the same patch twice is merging it once. */
  lemma MergeIdempotent(m: TeamMember, patch: MemberPatch)
    ensures Merge(Merge(m, patch), patch) == Merge(m, patch)
  {
  }

  /**
   * `handleUpdateMember`: the patch is merged into every member carrying
   * `id`; the other members are unchanged, and the project is stamped.
   */
  function UpdateMember(p: Project, id: string, patch: MemberPatch, now: int): (r: Project)
    ensures r == p.(team := r.team, updatedAt := now)
    ensures |r.team| == |p.team|
    ensures forall i :: 0 <= i < |p.team| ==>
      r.team[i] == if p.team[i].id == id then Merge(p.team[i], patch) else p.team[i]
  {
    p.(team := ReplaceWhere(p.team, (m: TeamMember) => m.id == id, (m: TeamMember) => Merge(m, patch)),
       updatedAt := now)
  }

  /** `handleDeleteMember`: exactly the members carrying `id` disappear, and the project is stamped. */
  function DeleteMember(p: Project, id: string, now: int): (r: Project)
    ensures r == p.(team := r.team, updatedAt := now)
    ensures IsSubsequence(r.team, p.team)
    ensures forall m :: m in r.team <==> m in p.team && m.id != id
    ensures |r.team| == Count(p.team, OtherId(MemberId, id))
  {
    p.(team := RemoveById(p.team, MemberId, id), updatedAt := now)
  }

  /** Ids are unique within the team. */
  predicate UniqueIds(team: seq<TeamMember>) {
    forall i, j :: 0 <= i < j < |team| ==> team[i].id != team[j].id
  }

  /** The confirm badge: `handleUpdateMember(member.id, { confirmed: !member.confirmed })`. */
  function ToggleConfirmed(p: Project, member: TeamMember, now: int): Project {
    UpdateMember(p, member.id, NO_CHANGES.(confirmed := Some(!member.confirmed)), now)
  }

  /** With unique ids, pressing a member's confirm badge twice restores the team. */
  lemma ToggleConfirmedTwice(p: Project, i: int, t1: int, t2: int)
    requires 0 <= i < |p.team| && UniqueIds(p.team)
    ensures var q := ToggleConfirmed(p, p.team[i], t1);
            ToggleConfirmed(q, q.team[i], t2).team == p.team
  {
    var q := ToggleConfirmed(p, p.team[i], t1);
    var r := ToggleConfirmed(q, q.team[i], t2);
    forall j | 0 <= j < |p.team| ensures r.team[j] == p.team[j] {
      if j != i {
        assert p.team[j].id != p.team[i].id;
      }
    }
  }

  function IsConfirmed(m: TeamMember): bool { m.confirmed }
  function IsUnconfirmed(m: TeamMember): bool { !m.confirmed }

  /** `confirmedMembers`, `unconfirmedMembers`: the two groups together are the whole team. */
  function ConfirmedMembers(team: seq<TeamMember>): (r: seq<TeamMember>)
    ensures IsSubsequence(r, team)
    ensures forall m :: m in r <==> m in team && m.confirmed
    ensures |r| == Count(team, IsConfirmed)
  {
    Filter(team, IsConfirmed)
  }

  function UnconfirmedMembers(team: seq<TeamMember>): (r: seq<TeamMember>)
    ensures IsSubsequence(r, team)
    ensures forall m :: m in r <==> m in team && !m.confirmed
    ensures |r| == Count(team, IsUnconfirmed)
  {
    Filter(team, IsUnconfirmed)
  }

  /** Confirmed and unconfirmed members together account for the whole team. */
  lemma MembersPartition(team: seq<TeamMember>)
    ensures |ConfirmedMembers(team)| + |UnconfirmedMembers(team)| == |team|
  {
    FilterPartition(team, IsConfirmed, IsUnconfirmed);
  }

  /** `totalCost`: the sum of member rates, an unset rate counting as 0. */
  function TotalCost(team: seq<TeamMember>): real {
    TeamCosts(team)
  }

  /** The payment selector shows only for a member with a positive rate. */
  predicate ShowsPaymentStatus(m: TeamMember) {
    m.rate.Some? && m.rate.value > 0.0
  }
}
