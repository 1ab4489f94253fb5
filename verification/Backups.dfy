/**
 The automatic backups of a project: four age tiers, one backup in each, rotated by a loop that
 works in place from the oldest tier down.

 `Rotated` says in one line what a rotation does to the list of backups, youngest first, and the
 class `ProjectBackup` is the loop itself, proved to do exactly that. The theorems about whole
 runs of the backup job are about the list. Times are in seconds.
 */
module Backups {

  type BackupId = nat
  type Time = int

  const TIERS: nat := 4
  const THRESHOLDS: seq<Time> := [600, 3600, 10800, 86400]
  const HOUR: Time := 3600

  /** A backup as the list sees it: which project row it is, and when it was taken. */
  datatype Entry = Entry(id: BackupId, takenAt: Time)

  // ---- One rotation, on the list ----

  predicate Aged(l: seq<Entry>, tier: nat, now: Time)
    requires tier < |l| && tier < TIERS
  {
    now - l[tier].takenAt >= THRESHOLDS[tier]
  }

  /** The oldest tier at or below `tier` whose backup outgrew it; `recent` when none did. */
  function OutgrownFrom(l: seq<Entry>, tier: nat, now: Time): (v: nat)
    requires tier < |l| <= TIERS
    ensures v <= tier
    ensures v > 0 ==> Aged(l, v, now)
    ensures forall t :: v < t <= tier ==> !Aged(l, t, now)
  {
    if tier == 0 || Aged(l, tier, now) then tier else OutgrownFrom(l, tier - 1, now)
  }

  /** The tier every younger backup moves up to: the first empty one, or the one given up. */
  function Gap(l: seq<Entry>, now: Time): (v: nat)
    requires |l| <= TIERS
    ensures v <= |l| && v < TIERS
  {
    if |l| < TIERS then |l| else OutgrownFrom(l, TIERS - 1, now)
  }

  function Without(l: seq<Entry>, i: nat): seq<Entry> {
    if i < |l| then l[..i] + l[i + 1..] else l
  }

  /** A new backup in front; of a full list, one older backup is given up. */
  function Rotated(l: seq<Entry>, e: Entry, now: Time): (r: seq<Entry>)
    requires |l| <= TIERS
    ensures |r| == (if |l| < TIERS then |l| + 1 else TIERS)
  {
    [e] + Without(l, Gap(l, now))
  }

  /** `due?` */
  predicate Due(l: seq<Entry>, eligible: bool, editedAt: Time) {
    eligible && (l == [] || editedAt > l[0].takenAt)
  }

  // ---- The rows, and the loop over them ----

  /** A backup row: its slot in the rotation and when it was taken. */
  datatype Backup = Backup(tier: nat, takenAt: Time)

  /** What the unique index on owner and tier demands of every single write. */
  ghost predicate OnePerTier(rows: map<BackupId, Backup>) {
    forall a, b :: a in rows && b in rows && rows[a].tier == rows[b].tier ==> a == b
  }

  datatype Slot = Empty | Held(entry: Entry)

  /** What tier `t` holds once tiers `i` and above are done, with the gap at `v`. */
  function SlotDuring(l: seq<Entry>, v: nat, i: nat, t: nat): Slot {
    if i <= v && t == i - 1 then Empty
    else if i <= t <= v && 0 < t <= |l| then Held(l[t - 1])
    else if t < |l| then Held(l[t])
    else Empty
  }

  lemma GapIsWherePromotionStops(l: seq<Entry>, now: Time, i: nat)
    requires |l| <= TIERS && 0 < i < TIERS
    ensures var v := Gap(l, now); var here, below := SlotDuring(l, v, i + 1, i), SlotDuring(l, v, i + 1, i - 1);
      (below.Held? && (here.Empty? || now - here.entry.takenAt >= THRESHOLDS[i])) <==> i <= v
  {
    if |l| == TIERS { assert Gap(l, now) < i ==> !Aged(l, i, now); }
  }

  lemma RotatedSlots(l: seq<Entry>, e: Entry, now: Time)
    requires |l| <= TIERS
    ensures var r := Rotated(l, e, now);
      && r[0] == e
      && forall t :: 0 < t < TIERS ==> SlotDuring(l, Gap(l, now), 1, t) == if t < |r| then Held(r[t]) else Empty
  {
  }

  // ---- Rows and memo, as values ----

  /** The memo agrees with the rows. */
  ghost predicate Agrees(rows: map<BackupId, Backup>, byTier: map<nat, BackupId>) {
    && (forall t :: t in byTier ==> t < TIERS && byTier[t] in rows && rows[byTier[t]].tier == t)
    && (forall b :: b in rows ==> rows[b].tier in byTier && byTier[rows[b].tier] == b)
  }

  function SlotOf(rows: map<BackupId, Backup>, byTier: map<nat, BackupId>, t: nat): Slot {
    if t in byTier && byTier[t] in rows then Held(Entry(byTier[t], rows[byTier[t]].takenAt)) else Empty
  }

  lemma AgreeingIsOnePerTier(rows: map<BackupId, Backup>, byTier: map<nat, BackupId>)
    requires Agrees(rows, byTier)
    ensures OnePerTier(rows)
    ensures forall t :: t !in byTier ==> forall b :: b in rows ==> rows[b].tier != t
  {
  }

  /** A tier's backup destroyed. */
  lemma DestroyedSlot(rows: map<BackupId, Backup>, byTier: map<nat, BackupId>, tier: nat)
    requires Agrees(rows, byTier) && tier in byTier
    ensures var rows', byTier' := rows - {byTier[tier]}, byTier - {tier};
      && Agrees(rows', byTier') && SlotOf(rows', byTier', tier) == Empty
      && forall t :: t != tier ==> SlotOf(rows', byTier', t) == SlotOf(rows, byTier, t)
  {
  }

  /** A tier's backup moved up to the next, empty one. */
  lemma MovedSlot(rows: map<BackupId, Backup>, byTier: map<nat, BackupId>, tier: nat)
    requires Agrees(rows, byTier) && 0 < tier < TIERS && tier - 1 in byTier && tier !in byTier
    ensures var b := byTier[tier - 1];
      var rows', byTier' := rows[b := rows[b].(tier := tier)], byTier[tier := b] - {tier - 1};
      && Agrees(rows', byTier')
      && SlotOf(rows', byTier', tier) == SlotOf(rows, byTier, tier - 1) && SlotOf(rows', byTier', tier - 1) == Empty
      && forall t :: t != tier && t != tier - 1 ==> SlotOf(rows', byTier', t) == SlotOf(rows, byTier, t)
  {
  }

  /** A new backup in an empty tier. */
  lemma FilledSlot(rows: map<BackupId, Backup>, byTier: map<nat, BackupId>, tier: nat, b: BackupId, now: Time)
    requires Agrees(rows, byTier) && tier < TIERS && tier !in byTier && b !in rows
    ensures var rows', byTier' := rows[b := Backup(tier, now)], byTier[tier := b];
      && Agrees(rows', byTier') && SlotOf(rows', byTier', tier) == Held(Entry(b, now))
      && forall t :: t != tier ==> SlotOf(rows', byTier', t) == SlotOf(rows, byTier, t)
  {
  }

  class ProjectBackup {
    var rows: map<BackupId, Backup>
    var byTier: map<nat, BackupId>
    var nextId: BackupId

    constructor ()
      ensures Valid() && Contents() == []
    {
      rows, byTier, nextId := map[], map[], 0;
    }

    ghost predicate Indexed()
      reads this
    {
      Agrees(rows, byTier) && forall b :: b in rows ==> b < nextId
    }

    ghost function SlotAt(t: nat): Slot
      reads this
    {
      SlotOf(rows, byTier, t)
    }

    ghost function ListFrom(t: nat): (l: seq<Entry>)
      reads this
      ensures |l| <= TIERS - t || (t > TIERS && l == [])
      ensures forall k :: 0 <= k < |l| ==> SlotAt(t + k) == Held(l[k])
      ensures t + |l| < TIERS ==> SlotAt(t + |l|) == Empty
      decreases TIERS - t
    {
      if t >= TIERS || SlotAt(t).Empty? then [] else [SlotAt(t).entry] + ListFrom(t + 1)
    }

    /** The backups, youngest tier first. */
    ghost function Contents(): (l: seq<Entry>)
      reads this
      ensures |l| <= TIERS
      ensures forall t :: 0 <= t < |l| ==> SlotAt(t) == Held(l[t])
      ensures |l| < TIERS ==> SlotAt(|l|) == Empty
    {
      ListFrom(0)
    }

    /** The occupied tiers are the first few. */
    ghost predicate Valid()
      reads this
    {
      Indexed() && forall t :: t in byTier ==> t < |Contents()|
    }

    /** What occupies each tier determines the list. */
    lemma ContentsAre(l: seq<Entry>)
      requires |l| <= TIERS
      requires forall t :: 0 <= t < TIERS ==> SlotAt(t) == if t < |l| then Held(l[t]) else Empty
      ensures Contents() == l
    {
      var c := Contents();
      var k := if |c| < |l| then |c| else |l|;
      assert k < TIERS ==> (SlotAt(k) == Empty <==> k == |l|);
      assert k < TIERS ==> (SlotAt(k) == Empty <==> k == |c|);
      forall t | 0 <= t < |l| ensures c[t] == l[t] {
        assert SlotAt(t) == Held(l[t]);
      }
    }

    method Destroy(b: BackupId)
      requires b in rows && OnePerTier(rows)
      modifies this`rows
      ensures rows == old(rows) - {b} && OnePerTier(rows)
    {
      rows := rows - {b};
    }

    method Retier(b: BackupId, tier: nat)
      requires b in rows && OnePerTier(rows)
      requires forall a :: a in rows ==> rows[a].tier != tier
      modifies this`rows
      ensures rows == old(rows)[b := old(rows)[b].(tier := tier)] && OnePerTier(rows)
    {
      rows := rows[b := rows[b].(tier := tier)];
    }

    method Insert(tier: nat, now: Time) returns (b: BackupId)
      requires forall a :: a in rows ==> a < nextId && rows[a].tier != tier
      requires OnePerTier(rows)
      modifies this`rows, this`nextId
      ensures b == old(nextId) && nextId == old(nextId) + 1
      ensures rows == old(rows)[b := Backup(tier, now)] && OnePerTier(rows)
    {
      b := nextId;
      rows, nextId := rows[b := Backup(tier, now)], nextId + 1;
    }

    /** Whatever occupies `tier` destroyed. */
    method Vacate(tier: nat)
      requires Indexed()
      modifies this`rows, this`byTier
      ensures Indexed() && tier !in byTier
      ensures forall t :: SlotAt(t) == if t == tier then Empty else old(SlotAt(t))
      ensures forall t :: t != tier ==> (t in byTier <==> t in old(byTier))
    {
      if tier in byTier {
        DestroyedSlot(rows, byTier, tier);
        AgreeingIsOnePerTier(rows, byTier);
        assert byTier[tier] in rows;
        hide Agrees, OnePerTier, SlotOf;
        Destroy(byTier[tier]);
        byTier := byTier - {tier};
      } else {
        hide Agrees;
      }
    }

    /** One turn of the loop, when the tier below has a backup to move up. */
    method Promote(tier: nat)
      requires Indexed() && 0 < tier < TIERS && tier - 1 in byTier
      modifies this`rows, this`byTier
      ensures Indexed()
      ensures SlotAt(tier) == old(SlotAt(tier - 1)) && SlotAt(tier - 1) == Empty
      ensures forall t :: 0 <= t < TIERS && t != tier && t != tier - 1 ==> SlotAt(t) == old(SlotAt(t))
    {
      Vacate(tier);
      AgreeingIsOnePerTier(rows, byTier);
      MovedSlot(rows, byTier, tier);
      hide OnePerTier, Agrees, SlotOf;
      var younger := byTier[tier - 1];
      Retier(younger, tier);
      byTier := byTier[tier := younger] - {tier - 1};
    }

    /** `promote_aged_backups` */
    method PromoteAgedBackups(now: Time)
      requires Valid()
      modifies this`rows, this`byTier
      ensures Indexed() && SlotAt(0) == Empty
      ensures forall t :: 0 < t < TIERS ==>
        SlotAt(t) == SlotDuring(old(Contents()), Gap(old(Contents()), now), 1, t)
    {
      ghost var l := Contents();
      ghost var v := Gap(l, now);
      var i := TIERS;
      while i > 1
        invariant 1 <= i <= TIERS && Indexed()
        invariant forall t :: 0 <= t < TIERS ==> SlotAt(t) == SlotDuring(l, v, i, t)
      {
        i := i - 1;
        assert SlotAt(i) == SlotDuring(l, v, i + 1, i) && SlotAt(i - 1) == SlotDuring(l, v, i + 1, i - 1);
        var promoting := i - 1 in byTier && (i !in byTier || now - rows[byTier[i]].takenAt >= THRESHOLDS[i]);
        assert promoting <==> i <= v by { GapIsWherePromotionStops(l, now, i); }
        if promoting {
          Promote(i);
        }
      }
      Vacate(0);
    }

    /** `take_snapshot` */
    method TakeSnapshot(now: Time)
      requires Indexed() && SlotAt(0) == Empty
      modifies this
      ensures Indexed() && nextId == old(nextId) + 1
      ensures SlotAt(0) == Held(Entry(old(nextId), now))
      ensures forall t :: 0 < t < TIERS ==> SlotAt(t) == old(SlotAt(t))
    {
      AgreeingIsOnePerTier(rows, byTier);
      FilledSlot(rows, byTier, 0, nextId, now);
      var b := Insert(0, now);
      byTier := byTier[0 := b];
    }

    /** `rotate!`, for a project that is (or is not) `eligible`: no backup itself, and paid for. */
    method Rotate(eligible: bool, editedAt: Time, now: Time) returns (taken: bool)
      requires Valid()
      modifies this
      ensures Valid()
      ensures taken <==> eligible && (old(Contents()) == [] || editedAt > old(Contents())[0].takenAt)
      ensures Contents() == if taken then Rotated(old(Contents()), Entry(old(nextId), now), now) else old(Contents())
      ensures nextId == old(nextId) + if taken then 1 else 0
    {
      ghost var l := Contents();
      assert 0 in byTier <==> l != [] by { assert l != [] ==> SlotAt(0) == Held(l[0]); }
      taken := eligible && (0 !in byTier || editedAt > rows[byTier[0]].takenAt);
      if !taken { return; }
      PromoteAgedBackups(now);
      assert forall a :: a in rows ==> rows[a].tier != 0;
      TakeSnapshot(now);
      RotatedSlots(l, Entry(nextId - 1, now), now);
      ContentsAre(Rotated(l, Entry(nextId - 1, now), now));
      assert forall t :: t in byTier ==> SlotAt(t).Held?;
    }
  }

  // ---- Whole runs ----

  predicate Increasing(times: seq<Time>) { forall i, j :: 0 <= i < j < |times| ==> times[i] < times[j] }

  /** The backups after rotations at `times`, from none. */
  function After(times: seq<Time>): (l: seq<Entry>)
    ensures |l| == if |times| < TIERS then |times| else TIERS
  {
    if times == [] then []
    else
      var n := |times| - 1;
      Rotated(After(times[..n]), Entry(n, times[n]), times[n])
  }

  /** Every backup is older, and was made earlier, than the one a tier below it. */
  predicate Ordered(l: seq<Entry>) {
    forall i, j :: 0 <= i < j < |l| ==> l[j].takenAt < l[i].takenAt && l[j].id < l[i].id
  }

  predicate TakenBefore(l: seq<Entry>, now: Time, id: BackupId) {
    forall i :: 0 <= i < |l| ==> l[i].takenAt < now && l[i].id < id
  }

  /** Each tier past `recent` holds a backup younger than its threshold. */
  predicate WithinThresholds(l: seq<Entry>, now: Time)
    requires |l| <= TIERS
  {
    forall t :: 0 < t < |l| ==> !Aged(l, t, now)
  }

  lemma NothingElseIsLost(l: seq<Entry>, v: nat, e: Entry)
    requires v < |l| && Ordered(l) && TakenBefore(l, e.takenAt, e.id)
    ensures var r := [e] + Without(l, v); l[v] !in r && multiset(r) + multiset{l[v]} == multiset(l) + multiset{e}
  {
    assert l == l[..v] + [l[v]] + l[v + 1..];
    assert l[v] !in l[..v] && l[v] !in l[v + 1..];
  }

  /** No backup is lost while there is room; from a full list, exactly the one in the gap is. */
  lemma RotationGivesUpExactlyOne(l: seq<Entry>, e: Entry, now: Time)
    requires |l| <= TIERS && Ordered(l) && TakenBefore(l, e.takenAt, e.id)
    ensures var r, v := Rotated(l, e, now), Gap(l, now);
      if |l| < TIERS then r == [e] + l
      else l[v] !in r && multiset(r) + multiset{l[v]} == multiset(l) + multiset{e}
  {
    var v := Gap(l, now);
    if |l| == TIERS {
      assert Rotated(l, e, now) == [e] + Without(l, v);
      hide Gap, Rotated;
      NothingElseIsLost(l, v, e);
    }
  }

  /** A rotation keeps the order, with the new backup in front. */
  lemma RotationKeepsOrder(l: seq<Entry>, e: Entry, now: Time)
    requires |l| <= TIERS && Ordered(l) && TakenBefore(l, e.takenAt, e.id)
    ensures Ordered(Rotated(l, e, now)) && Rotated(l, e, now)[0] == e
  {
    assert Rotated(l, e, now) == [e] + Without(l, Gap(l, now));
    hide Gap, Rotated;
    OrderedAfterGivingUp(l, Gap(l, now), e);
  }

  lemma WithoutAt(l: seq<Entry>, v: nat)
    requires v <= |l|
    ensures forall k :: 0 <= k < |Without(l, v)| ==> Without(l, v)[k] == l[if k < v then k else k + 1]
  {
  }

  lemma OrderedAfterGivingUp(l: seq<Entry>, v: nat, e: Entry)
    requires v <= |l| && Ordered(l) && TakenBefore(l, e.takenAt, e.id)
    ensures Ordered([e] + Without(l, v))
  {
    WithoutAt(l, v);
    assert |Without(l, v)| <= |l| && (v < |l| ==> |Without(l, v)| == |l| - 1);
    hide Without;
  }

  /**
   Which backup is given up: one that outgrew its tier, with every older one still within its
   own; or the most recent one, if none outgrew its tier.
   */
  lemma GivenUpIsTheOldestOutgrown(l: seq<Entry>, now: Time)
    requires |l| == TIERS
    ensures var v := Gap(l, now);
      && (v == 0 <==> WithinThresholds(l, now))
      && (v > 0 ==> Aged(l, v, now))
      && forall t :: v < t < TIERS ==> !Aged(l, t, now)
  {
  }

  /**
   What is left of a full list: everything but the daily backup once that is a day old, else but
   the three-hourly once that is three hours old, else but the hourly once that is an hour old,
   and otherwise all but the recent one.
   */
  lemma RotationOfFullList(a: Entry, b: Entry, c: Entry, d: Entry, e: Entry, now: Time)
    ensures Rotated([a, b, c, d], e, now) ==
      if now - d.takenAt >= 86400 then [e, a, b, c]
      else if now - c.takenAt >= 10800 then [e, a, b, d]
      else if now - b.takenAt >= 3600 then [e, a, c, d]
      else [e, b, c, d]
  {
    var l := [a, b, c, d];
    assert THRESHOLDS[1] == 3600 && THRESHOLDS[2] == 10800 && THRESHOLDS[3] == 86400;
    assert OutgrownFrom(l, 1, now) == if now - b.takenAt >= 3600 then 1 else 0;
    assert OutgrownFrom(l, 2, now) == if now - c.takenAt >= 10800 then 2 else OutgrownFrom(l, 1, now);
    assert Gap(l, now) == if now - d.takenAt >= 86400 then 3 else OutgrownFrom(l, 2, now);
    hide OutgrownFrom, Gap;
    assert l[..3] == [a, b, c] && l[..2] == [a, b] && l[..1] == [a];
    assert l[1..] == [b, c, d] && l[2..] == [c, d] && l[3..] == [d];
  }

  /**
   After a rotation every tier past `recent` is within its threshold exactly when each backup it
   moves up is younger than the threshold of the tier it moves to: whatever the list was, and
   whatever was past a threshold before.
   */
  lemma ThresholdsHoldExactlyWhen(l: seq<Entry>, e: Entry, now: Time)
    requires |l| <= TIERS
    ensures WithinThresholds(Rotated(l, e, now), now)
      <==> forall t :: 0 < t <= Gap(l, now) ==> now - l[t - 1].takenAt < THRESHOLDS[t]
  {
    var v, r := Gap(l, now), Rotated(l, e, now);
    assert forall t :: 0 < t < |r| ==> r[t] == if t <= v then l[t - 1] else l[t];
    if |l| == TIERS { GivenUpIsTheOldestOutgrown(l, now); }
    assert v < |l| ==> |l| == TIERS;
    assert v < |r|;
    hide Rotated, Gap;
    forall t | 0 < t < |r| && t > v ensures !Aged(r, t, now) { assert !Aged(l, t, now); }
    forall t | 0 < t <= v ensures Aged(r, t, now) <==> now - l[t - 1].takenAt >= THRESHOLDS[t] {
      assert r[t] == l[t - 1];
    }
  }

  /**
   Where the thresholds held at the last rotation, they hold after the next exactly when that one
   comes less than an hour later.
   */
  lemma ThresholdsHoldExactlyWhenRecent(l: seq<Entry>, e: Entry, last: Time)
    requires 0 < |l| <= TIERS && Ordered(l) && l[0].takenAt == last && WithinThresholds(l, last)
    requires TakenBefore(l, e.takenAt, e.id)
    ensures WithinThresholds(Rotated(l, e, e.takenAt), e.takenAt) <==> e.takenAt - last < HOUR
  {
    var now := e.takenAt;
    ThresholdsHoldExactlyWhen(l, e, now);
    if now - last < HOUR {
      forall t | 0 < t <= Gap(l, now) ensures now - l[t - 1].takenAt < THRESHOLDS[t] {
        if t > 1 { assert !Aged(l, t - 1, last); }
      }
    } else {
      if |l| == TIERS { GivenUpIsTheOldestOutgrown(l, now); }
      assert |l| == TIERS ==> Aged(l, 1, now);
      assert Gap(l, now) > 0 && now - l[0].takenAt >= THRESHOLDS[1];
    }
  }

  /**
   After any number of rotations there are that many backups, four at most; each tier holds an
   older backup than the tier below, and `recent` holds the newest.
   */
  lemma {:induction false} BackupsStayOrderedAndBounded(times: seq<Time>)
    requires Increasing(times) && times != []
    ensures var l, n := After(times), |times|;
      && |l| == (if n < TIERS then n else TIERS)
      && Ordered(l) && l[0] == Entry(n - 1, times[n - 1])
  {
    var n := |times| - 1;
    var front := times[..n];
    var before, e := After(front), Entry(n, times[n]);
    if n > 0 {
      BackupsStayOrderedAndBounded(front);
      assert TakenBefore(before, times[n], n);
      hide Rotated, Aged, Gap;
      RotationKeepsOrder(before, e, times[n]);
    }
  }

  /** Every tier past `recent` is within its threshold right after the `k`th rotation. */
  predicate WithinAfter(times: seq<Time>, k: nat)
    requires 0 < k <= |times|
  {
    WithinThresholds(After(times[..k]), times[k - 1])
  }

  lemma WithinAfterNext(times: seq<Time>, k: nat)
    requires Increasing(times) && 0 < k < |times| && WithinAfter(times, k)
    ensures WithinAfter(times, k + 1) <==> times[k] - times[k - 1] < HOUR
  {
    var front, now := times[..k], times[k];
    var l, e := After(front), Entry(k, now);
    assert times[..k + 1] == front + [now];
    AfterOneMore(front, now);
    assert Increasing(front) && front[k - 1] == times[k - 1] && times[k - 1] < now;
    hide After, Rotated, Aged, Increasing;
    BackupsStayOrderedAndBounded(front);
    LeadsAreBefore(l, e);
    ThresholdsHoldExactlyWhenRecent(l, e, times[k - 1]);
  }

  lemma LeadsAreBefore(l: seq<Entry>, e: Entry)
    requires l != [] && Ordered(l) && l[0].takenAt < e.takenAt && l[0].id < e.id
    ensures TakenBefore(l, e.takenAt, e.id)
  {
  }

  lemma WithinAfterFirst(times: seq<Time>)
    requires times != []
    ensures WithinAfter(times, 1)
  {
    assert |After(times[..1])| == 1;
    hide After;
  }

  lemma {:induction false} WithinAfterUpTo(times: seq<Time>, n: nat)
    requires Increasing(times) && 0 < n <= |times|
    ensures (forall k :: 0 < k <= n ==> WithinAfter(times, k))
      <==> forall i :: 0 < i < n ==> times[i] - times[i - 1] < HOUR
  {
    hide WithinAfter, Increasing;
    WithinAfterFirst(times);
    if n > 1 {
      WithinAfterUpTo(times, n - 1);
      if forall k :: 0 < k < n ==> WithinAfter(times, k) {
        assert WithinAfter(times, n - 1);
        WithinAfterNext(times, n - 1);
      }
    }
  }

  /**
   Over any run the tiers hold what they are named for after every rotation, exactly if every
   pause between rotations is shorter than an hour.
   */
  lemma TiersHoldExactlyWhenHourly(times: seq<Time>)
    requires Increasing(times)
    ensures (forall k :: 0 < k <= |times| ==> WithinAfter(times, k))
      <==> forall i :: 0 < i < |times| ==> times[i] - times[i - 1] < HOUR
  {
    hide WithinAfter;
    if times != [] { WithinAfterUpTo(times, |times|); }
  }

  /** One pause of four hours leaves a tier past its threshold even ten minutes after the next rotation. */
  lemma PauseIsStillFelt()
    ensures var times := [0, 14400, 15000];
      After(times) == [Entry(2, 15000), Entry(1, 14400), Entry(0, 0)] && !WithinThresholds(After(times), 15000)
  {
    var times := [0, 14400, 15000];
    assert times[..2] == [0, 14400] && times[..2][..1] == [0] && [0][..0] == [];
    assert After([0]) == [Entry(0, 0)];
    assert After([0, 14400]) == [Entry(1, 14400), Entry(0, 0)];
    assert Aged(After(times), 2, 15000);
  }

  // ---- The job, with edits in between ----

  /** One visit of the backup job: when, and when the source was last edited by then. */
  datatype Visit = Visit(now: Time, editedAt: Time)

  predicate Sensible(visits: seq<Visit>) {
    && (forall i :: 0 <= i < |visits| ==> visits[i].editedAt <= visits[i].now)
    && (forall i, j :: 0 <= i < j < |visits| ==>
          visits[i].now < visits[j].now && visits[i].editedAt <= visits[j].editedAt)
  }

  /** The times at which the job did rotate. */
  function Rotations(visits: seq<Visit>): (times: seq<Time>)
  {
    if visits == [] then []
    else
      var v, before := visits[|visits| - 1], Rotations(visits[..|visits| - 1]);
      if before == [] || v.editedAt > before[|before| - 1] then before + [v.now] else before
  }

  /** The backups after a run of visits: `Rotate` at each, on the list. */
  function Visited(visits: seq<Visit>): (l: seq<Entry>)
    ensures |l| <= TIERS
  {
    if visits == [] then []
    else
      var v, front := visits[|visits| - 1], visits[..|visits| - 1];
      var l := Visited(front);
      if Due(l, true, v.editedAt) then Rotated(l, Entry(|Rotations(front)|, v.now), v.now) else l
  }

  lemma {:induction false} RotationsAreVisits(visits: seq<Visit>)
    requires Sensible(visits)
    ensures Increasing(Rotations(visits))
    ensures forall i :: 0 <= i < |Rotations(visits)| ==> Rotations(visits)[i] <= visits[|visits| - 1].now
  {
    if visits != [] {
      RotationsAreVisits(visits[..|visits| - 1]);
    }
  }

  /**
   What the visits leave behind is what the rotations among them do, so the bounds above hold
   for it; and there is always a backup at least as recent as the last edit the job saw, while a
   visit that finds nothing edited since the last backup changes nothing.
   */
  lemma {:induction false} VisitsKeepUpWithEdits(visits: seq<Visit>)
    requires Sensible(visits)
    ensures Visited(visits) == After(Rotations(visits))
    ensures visits != [] ==>
      var l, last := Visited(visits), visits[|visits| - 1];
      && l != [] && last.editedAt <= l[0].takenAt <= last.now
      && !Due(l, true, last.editedAt)
  {
    if visits != [] {
      var front, v := visits[..|visits| - 1], visits[|visits| - 1];
      var before := Rotations(front);
      assert Sensible(front) && forall i :: 0 <= i < |front| ==> front[i].now < v.now;
      VisitsKeepUpWithEdits(front);
      RotationsAreVisits(front);
      hide Sensible, After, Rotated, Due, Increasing;
      OneMoreVisit(before, v);
    }
  }

  lemma OneMoreVisit(before: seq<Time>, v: Visit)
    requires Increasing(before) && v.editedAt <= v.now && forall i :: 0 <= i < |before| ==> before[i] <= v.now
    ensures var l := After(before);
      var due := Due(l, true, v.editedAt);
      var r := if due then Rotated(l, Entry(|before|, v.now), v.now) else l;
      && (due <==> before == [] || v.editedAt > before[|before| - 1])
      && r == After(if due then before + [v.now] else before)
      && r != [] && v.editedAt <= r[0].takenAt <= v.now && !Due(r, true, v.editedAt)
  {
    LatestRotationLeads(before);
    AfterOneMore(before, v.now);
    hide After, Rotated, Increasing;
  }

  lemma LatestRotationLeads(times: seq<Time>)
    requires Increasing(times)
    ensures if times == [] then After(times) == []
            else After(times) != [] && After(times)[0].takenAt == times[|times| - 1]
  {
    if times != [] { BackupsStayOrderedAndBounded(times); }
  }

  lemma AfterOneMore(times: seq<Time>, now: Time)
    ensures var e := Entry(|times|, now);
      After(times + [now]) == Rotated(After(times), e, now) && Rotated(After(times), e, now)[0] == e
  {
    assert (times + [now])[..|times|] == times;
  }
}
