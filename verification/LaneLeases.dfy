/**
 * Per-pane control leases: a delegation or takeover raises the pane's revision
 * and replaces the lease, unless the expiry asked for is not a valid time.
 */
module LaneLeases {
  import opened ControlEvents

  datatype Actor = Human | Automation

  datatype Lease = Lease(pane: string, actor: string, kind: Actor, task: Option<string>, revision: nat, expires: int)

  datatype Lookup = Current(lease: Lease) | RevisionMismatch | LaneConflict | Expired

  /** How long a takeover holds, in milliseconds. */
  const TAKEOVER_TTL: int := 24 * 60 * 60 * 1000

  /** The latest time a date can name, in milliseconds; the earliest is its negative. */
  const MAX_TIME: int := 8_640_000_000_000_000

  /** When a lease would expire; nothing when that is no valid time, as for a duration that is no number. */
  function ExpiryOf(now: int, ttl: Option<int>): Option<int> {
    if ttl.Some? && -MAX_TIME <= now + ttl.value <= MAX_TIME then Some(now + ttl.value) else None
  }

  /** The two maps of the store. */
  datatype Lanes = Lanes(leases: map<string, Lease>, revisions: map<string, nat>)

  function Revision(l: Lanes, pane: string): nat {
    if pane in l.revisions then l.revisions[pane] else 0
  }

  /** What `delegate` and `takeover` do: the revision is raised before the expiry is looked at. */
  function Replaced(l: Lanes, pane: string, actor: string, kind: Actor, task: Option<string>,
                    expires: Option<int>): Lanes {
    var r := Revision(l, pane) + 1;
    Lanes(if expires.Some? then l.leases[pane := Lease(pane, actor, kind, task, r, expires.value)] else l.leases,
          l.revisions[pane := r])
  }

  predicate Valid(l: Lanes) {
    forall p :: p in l.leases ==> p in l.revisions && l.leases[p].pane == p && l.leases[p].revision <= l.revisions[p]
  }

  function Check(l: Lanes, pane: string, actor: string, kind: Actor, revision: nat, now: int): Lookup {
    if pane !in l.leases || l.leases[pane].revision != revision then RevisionMismatch
    else if l.leases[pane].actor != actor || l.leases[pane].kind != kind then LaneConflict
    else if l.leases[pane].expires <= now then Expired
    else Current(l.leases[pane])
  }

  class LaneLeaseStore {
    var leases: map<string, Lease>
    var revisions: map<string, nat>

    function State(): Lanes
      reads this
    {
      Lanes(leases, revisions)
    }

    constructor ()
      ensures State() == Lanes(map[], map[]) && Valid(State())
    {
      leases, revisions := map[], map[];
    }

    /** Each returns the new lease, or nothing when it throws. */
    method Delegate(pane: string, actor: string, task: string, ttl: Option<int>, now: int)
      returns (lease: Option<Lease>)
      modifies this
      ensures State() == Replaced(old(State()), pane, actor, Automation,
                                  if task == "" then None else Some(task), ExpiryOf(now, ttl))
      ensures lease.Some? <==> ExpiryOf(now, ttl).Some?
      ensures lease.Some? ==> pane in leases && lease.value == leases[pane]
    {
      lease := Replace(pane, actor, Automation, ttl, task, now);
    }

    method Takeover(pane: string, actor: string, now: int) returns (lease: Option<Lease>)
      modifies this
      ensures State() == Replaced(old(State()), pane, actor, Human, None, ExpiryOf(now, Some(TAKEOVER_TTL)))
      ensures lease.Some? <==> ExpiryOf(now, Some(TAKEOVER_TTL)).Some?
      ensures lease.Some? ==> pane in leases && lease.value == leases[pane]
    {
      lease := Replace(pane, actor, Human, Some(TAKEOVER_TTL), "", now);
    }

    method Replace(pane: string, actor: string, kind: Actor, ttl: Option<int>, task: string, now: int)
      returns (lease: Option<Lease>)
      modifies this
      ensures State() == Replaced(old(State()), pane, actor, kind, if task == "" then None else Some(task),
                                  ExpiryOf(now, ttl))
      ensures lease.Some? <==> ExpiryOf(now, ttl).Some?
      ensures lease.Some? ==> pane in leases && lease.value == leases[pane]
    {
      var revision := (if pane in revisions then revisions[pane] else 0) + 1;
      revisions := revisions[pane := revision];
      var expires := ExpiryOf(now, ttl);
      if expires.None? { return None; }
      lease := Some(Lease(pane, actor, kind, if task == "" then None else Some(task), revision, expires.value));
      leases := leases[pane := lease.value];
    }

    method Assert(pane: string, actor: string, kind: Actor, revision: nat, now: int) returns (r: Lookup)
      ensures r == Check(State(), pane, actor, kind, revision, now)
    {
      if pane !in leases { return RevisionMismatch; }
      var lease := leases[pane];
      if lease.revision != revision { return RevisionMismatch; }
      if lease.actor != actor || lease.kind != kind { return LaneConflict; }
      if lease.expires <= now { return Expired; }
      r := Current(lease);
    }
  }

  // ---- Histories ----

  /** A call to delegate or to take over; without an expiry it threw. */
  datatype Change = Change(pane: string, actor: string, kind: Actor, task: Option<string>, expires: Option<int>)

  function After(changes: seq<Change>): Lanes {
    if changes == [] then Lanes(map[], map[])
    else
      var c := changes[|changes| - 1];
      Replaced(After(changes[..|changes| - 1]), c.pane, c.actor, c.kind, c.task, c.expires)
  }

  /** How often a pane was to be delegated or taken over; the number of a call is its revision. */
  function Calls(changes: seq<Change>, pane: string): nat {
    if changes == [] then 0
    else Calls(changes[..|changes| - 1], pane) + (if changes[|changes| - 1].pane == pane then 1 else 0)
  }

  /** The number of the last call that did not throw; 0 without one. */
  function LastGranted(changes: seq<Change>, pane: string): nat {
    if changes == [] then 0
    else
      var c := changes[|changes| - 1];
      if c.pane == pane && c.expires.Some? then Calls(changes, pane) else LastGranted(changes[..|changes| - 1], pane)
  }

  lemma {:induction false} RevisionCounts(changes: seq<Change>, pane: string)
    ensures var l := After(changes);
            && Valid(l) && Revision(l, pane) == Calls(changes, pane)
            && (pane in l.leases <==> LastGranted(changes, pane) > 0)
            && (pane in l.leases ==> l.leases[pane].revision == LastGranted(changes, pane))
  {
    if changes != [] {
      RevisionCounts(changes[..|changes| - 1], pane);
    }
  }

  /** Some call for the pane went through. */
  predicate Renewed(changes: seq<Change>, pane: string) {
    exists i :: 0 <= i < |changes| && changes[i].pane == pane && changes[i].expires.Some?
  }

  lemma {:induction false} GrantsGrow(changes: seq<Change>, more: seq<Change>, pane: string)
    ensures Calls(changes + more, pane) == Calls(changes, pane) + Calls(more, pane)
    ensures if Renewed(more, pane) then LastGranted(changes + more, pane) > Calls(changes, pane)
            else LastGranted(changes + more, pane) == LastGranted(changes, pane)
  {
    if more == [] {
      assert changes + more == changes;
    } else {
      var n := |more| - 1;
      assert (changes + more)[..|changes + more| - 1] == changes + more[..n];
      GrantsGrow(changes, more[..n], pane);
      RenewedSnoc(more, pane);
    }
  }

  lemma RenewedSnoc(more: seq<Change>, pane: string)
    requires more != []
    ensures var n := |more| - 1;
            Renewed(more, pane) <==> Renewed(more[..n], pane) || (more[n].pane == pane && more[n].expires.Some?)
  {
    var n := |more| - 1;
    if i :| 0 <= i < |more| && more[i].pane == pane && more[i].expires.Some? {
      assert i < n ==> more[..n][i] == more[i];
    }
    if i :| 0 <= i < n && more[..n][i].pane == pane && more[..n][i].expires.Some? {
      assert more[i] == more[..n][i];
    }
  }

  /**
   * Whoever asks and whenever: a revision there has been is refused, except that
   * of the pane's lease while no later delegation or takeover of it went through.
   */
  lemma EarlierRevisionRefused(changes: seq<Change>, more: seq<Change>, pane: string, actor: string, kind: Actor,
                               revision: nat, now: int)
    requires revision <= Calls(changes, pane)
    ensures Check(After(changes + more), pane, actor, kind, revision, now) == RevisionMismatch <==>
            Renewed(more, pane) || revision == 0 || revision != LastGranted(changes, pane)
  {
    hide After, Calls, LastGranted, Renewed;
    GrantsGrow(changes, more, pane);
    RevisionCounts(changes + more, pane);
    RevisionCounts(changes, pane);
  }

  /** The latest lease passes for its own holder until it expires, and for nobody else. */
  lemma LatestLeasePasses(changes: seq<Change>, c: Change, actor: string, kind: Actor, now: int)
    requires c.expires.Some?
    ensures var l := After(changes + [c]);
            var r := Calls(changes, c.pane) + 1;
            Check(l, c.pane, actor, kind, r, now).Current? <==>
              actor == c.actor && kind == c.kind && now < c.expires.value
  {
    hide After, Calls;
    RevisionCounts(changes, c.pane);
    AfterSnoc(changes, c);
  }

  /** A delegation lets its actor pass exactly until its duration is over, and only if that is a valid time. */
  lemma DelegationLasts(changes: seq<Change>, pane: string, actor: string, task: Option<string>, ttl: Option<int>,
                        now: int, later: int)
    ensures var c := Change(pane, actor, Automation, task, ExpiryOf(now, ttl));
            Check(After(changes + [c]), pane, actor, Automation, Calls(changes, pane) + 1, later).Current? <==>
              ttl.Some? && -MAX_TIME <= now + ttl.value <= MAX_TIME && later < now + ttl.value
  {
    hide After, Calls;
    var c := Change(pane, actor, Automation, task, ExpiryOf(now, ttl));
    RevisionCounts(changes, pane);
    AfterSnoc(changes, c);
    if c.expires.Some? { LatestLeasePasses(changes, c, actor, Automation, later); }
  }

  lemma AfterSnoc(changes: seq<Change>, c: Change)
    ensures After(changes + [c]) == Replaced(After(changes), c.pane, c.actor, c.kind, c.task, c.expires)
  {
    assert (changes + [c])[..|changes|] == changes;
  }

  /**
   * A call that throws leaves the pane's lease in force, though it raised the
   * revision: every check answers as before.
   */
  lemma ThrownChangesNothing(changes: seq<Change>, c: Change, pane: string, actor: string, kind: Actor, revision: nat,
                             now: int)
    requires c.expires.None?
    ensures Check(After(changes + [c]), pane, actor, kind, revision, now)
         == Check(After(changes), pane, actor, kind, revision, now)
    ensures Revision(After(changes + [c]), c.pane) == Revision(After(changes), c.pane) + 1
  {
    hide After;
    AfterSnoc(changes, c);
  }
}
