/** The purge of soft-deleted organizations: why its first step trips only over a
    subscription, why its second step never trips, and what neither leaves behind. */
module TenancyPurge {
  import opened Common
  import opened Tenancy
  import opened TenancyInvariants
  import S = TenancySteps

  /** Every project is filed under a membership of its own organization, so the
      projects that go first are all that could have kept a membership. */
  lemma PurgeableIffUnsubscribed(db: Tables, o: Id)
    requires Inv(db) && o in db.orgs
    ensures S.Purgeable(db, o) <==> !db.orgs[o].subscribed
  {
    if !db.orgs[o].subscribed {
      forall p | p in db.files.projects && db.files.projects[p].org != o && db.files.projects[p].membership in db.memberships
        ensures db.memberships[db.files.projects[p].membership].org != o
      {
        assert S.SameOrganization(db.memberships, db.files.projects[p]);
      }
    }
  }

  /** An orphan owns nothing, filed nothing and completed nobody's request. */
  lemma OrphanIsDestroyable(db: Tables, u: Id)
    requires Inv(db) && u in S.Orphans(db)
    ensures S.Destroyable(db, u)
  {
    OrphansAreFree(db, {u});
  }

  lemma SecondStepNeverFails(db: Tables)
    requires Inv(db)
    ensures S.PurgeOrphans(db) == S.Outcome(S.DropUsers(db, S.Orphans(db)), S.Done)
  {
    var purged := S.OrphanPrefix(db);
    forall u | u in S.Orphans(db) ensures u in purged {
      forall v | v in S.Orphans(db) ensures S.Destroyable(db, v) { OrphanIsDestroyable(db, v); }
    }
    assert purged == S.Orphans(db);
  }

  predicate NoneSubscribed(db: Tables, os: set<Id>) {
    forall o :: o in os && o in db.orgs ==> !db.orgs[o].subscribed
  }

  lemma FirstStepCommitsIff(db: Tables, now: Time, start: Id, stop: Option<Id>)
    requires Inv(db)
    ensures var due := S.DueBetween(db, now, start, stop); S.PurgePrefix(db, now, start, stop) == due <==> NoneSubscribed(db, due)
  {
    var due := S.DueBetween(db, now, start, stop);
    forall o | o in due ensures S.Purgeable(db, o) <==> !db.orgs[o].subscribed {
      PurgeableIffUnsubscribed(db, o);
    }
    if S.PurgePrefix(db, now, start, stop) == due {
      forall o | o in due ensures !db.orgs[o].subscribed {
        assert o in S.PurgePrefix(db, now, start, stop);
      }
    }
  }

  /** An execution of the job raises only at a due organization that still has a
      subscription, and otherwise does exactly its deletions: the due organizations
      between its cursor and its interruption, and without one the orphans too. */
  lemma PurgeCommitsIff(db: Tables, now: Time, start: Id, stop: Option<Id>)
    requires Inv(db)
    ensures var (due, r) := (S.DueBetween(db, now, start, stop), S.Purge(db, now, start, stop));
            var first := S.DropOrganizations(db, due);
            && (r.reply == S.Done <==> NoneSubscribed(db, due))
            && (r.reply == S.Done ==> r.db == if stop.Some? then first else S.DropUsers(first, S.Orphans(first)))
  {
    FirstStepCommitsIff(db, now, start, stop);
    DropOrganizationsKeepsInv(db, S.PurgePrefix(db, now, start, stop));
    hide Inv, NoneSubscribed, S.PurgePrefix, S.DueBetween, S.DropOrganizations, S.PurgeOrphans;
    SecondStepNeverFails(S.DropOrganizations(db, S.PurgePrefix(db, now, start, stop)));
  }

  /** Exactly the due organizations are gone, and no row refers to one of them. */
  ghost predicate Purged(db: Tables, later: Tables, os: set<Id>) {
    && later.orgs == db.orgs - os
    && (forall k :: k in later.memberships <==> k in db.memberships && db.memberships[k].org !in os)
    && (forall i :: i in later.invitations ==> later.invitations[i].org !in os)
    && (forall r :: r in later.requests ==> later.requests[r].org !in os)
    && (forall p :: p in later.files.projects <==> p in db.files.projects && db.files.projects[p].org !in os)
    && (forall e :: e in later.files.exports ==> later.files.exports[e].org !in os)
    && (forall c :: c in later.identity.connections <==> c in db.identity.connections && db.identity.connections[c].org !in os)
    && (forall c :: c in later.identity.scim ==> later.identity.scim[c].org !in os)
    && (forall d :: d in later.identity.domains && later.identity.domains[d].connection in db.identity.connections ==>
          later.identity.domains[d].connection in later.identity.connections)
  }

  lemma DroppedIsPurged(db: Tables, os: set<Id>)
    ensures Purged(db, S.DropOrganizations(db, os), os)
  {
  }

  /** Orphans have no memberships, so their removal takes no seat away. */
  lemma OrphansTakeNoSeat(db: Tables)
    ensures var later := S.DropUsers(db, S.Orphans(db));
            later.memberships == db.memberships && later.orgs == db.orgs && S.Orphans(later) == {}
            && (forall u :: u in later.users <==> u in db.users && u !in S.Orphans(db))
  {
    var gone := S.SeatsOf(db.memberships, S.Orphans(db));
    assert gone == {};
    assert db.memberships - gone == db.memberships;
  }

  lemma PurgedStaysPurged(db: Tables, first: Tables, os: set<Id>)
    requires Purged(db, first, os)
    ensures Purged(db, S.DropUsers(first, S.Orphans(first)), os)
  {
    OrphansTakeNoSeat(first);
    hide S.Orphans;
  }

  /** After a job that ran through in one go, no due organization and no row of one is
      left, and every redacted account still holds a membership somewhere. */
  lemma PurgeLeavesNoTrace(db: Tables, now: Time)
    requires Inv(db) && S.Purge(db, now, 0, None).reply == S.Done
    ensures var later := S.Purge(db, now, 0, None).db;
            && Purged(db, later, S.DueOrganizations(db, now))
            && S.DueOrganizations(later, now) == {} && S.Orphans(later) == {}
            && (forall k :: k in later.memberships ==> later.memberships[k] == db.memberships[k])
            && (forall u :: u in later.users <==> u in db.users && (db.users[u].redactedAt == None || exists k :: Seats(later, k, u)))
  {
    var os := S.DueOrganizations(db, now);
    RedactedStayIffSeated(db, os);
    assert S.DueBetween(db, now, 0, None) == os;
    PurgeCommitsIff(db, now, 0, None);
    var first := S.DropOrganizations(db, os);
    DroppedIsPurged(db, os);
    OrphansTakeNoSeat(first);
    PurgedStaysPurged(db, first, os);
    hide Inv, Purged, S.Purge, S.DueBetween, S.Orphans, S.DropUsers;
  }

  predicate Seats(db: Tables, k: Id, u: Id) {
    k in db.memberships && db.memberships[k].user == u
  }

  lemma RedactedStayIffSeated(db: Tables, os: set<Id>)
    ensures var first := S.DropOrganizations(db, os);
            var later := S.DropUsers(first, S.Orphans(first));
            forall u :: u in later.users <==> u in db.users && (db.users[u].redactedAt == None || exists k :: Seats(later, k, u))
  {
    var first := S.DropOrganizations(db, os);
    OrphansTakeNoSeat(first);
    var later := S.DropUsers(first, S.Orphans(first));
    assert first.users == db.users;
    hide S.DropUsers, S.DropOrganizations;
    forall u | u in db.users ensures u !in S.Orphans(first) <==> (db.users[u].redactedAt == None || exists k :: Seats(later, k, u)) {
      if k :| k in first.memberships && first.memberships[k].user == u {
        assert Seats(later, k, u);
      }
    }
  }

  lemma ExecutionPurges(db: Tables, now: Time, start: Id, stop: Option<Id>)
    requires Inv(db) && S.Purge(db, now, start, stop).reply == S.Done
    ensures var later := S.Purge(db, now, start, stop).db;
            Inv(later) && later.orgs == db.orgs - S.DueBetween(db, now, start, stop) && (stop.None? ==> S.Orphans(later) == {})
  {
    var os := S.DueBetween(db, now, start, stop);
    PurgeKeepsInv(db, now, start, stop);
    PurgeCommitsIff(db, now, start, stop);
    DroppedIsPurged(db, os);
    OrphansTakeNoSeat(S.DropOrganizations(db, os));
    hide Inv, S.Purge, S.DueBetween, S.Orphans, S.DropUsers, S.DropOrganizations;
  }

  /** Interrupted at a cursor and resumed from it later, the job still gets every
      organization that was due when it began, and every orphan. */
  lemma ResumedPurgeIsComplete(db: Tables, now: Time, cursor: Id, later: Time)
    requires Inv(db) && now <= later
    requires var first := S.Purge(db, now, 0, Some(cursor));
             first.reply == S.Done && S.Purge(first.db, later, cursor, None).reply == S.Done
    ensures var db2 := S.Purge(S.Purge(db, now, 0, Some(cursor)).db, later, cursor, None).db;
            && (forall o :: o in S.DueOrganizations(db, now) ==> o !in db2.orgs)
            && S.DueOrganizations(db2, now) == {} && S.Orphans(db2) == {}
  {
    hide Inv, S.Purge, S.Orphans, S.DueOrganizations, S.DueBetween;
    var db1 := S.Purge(db, now, 0, Some(cursor)).db;
    ExecutionPurges(db, now, 0, Some(cursor));
    ExecutionPurges(db1, later, cursor, None);
    DueInTwoParts(db, db1, S.Purge(db1, later, cursor, None).db, now, cursor, later);
  }

  lemma DueInTwoParts(db: Tables, db1: Tables, db2: Tables, now: Time, cursor: Id, later: Time)
    requires now <= later && db1.orgs == db.orgs - S.DueBetween(db, now, 0, Some(cursor))
    requires db2.orgs == db1.orgs - S.DueBetween(db1, later, cursor, None)
    ensures (forall o :: o in S.DueOrganizations(db, now) ==> o !in db2.orgs) && S.DueOrganizations(db2, now) == {}
  {
  }

  /** An organization that was not deleted, or less than thirty days ago, comes through
      the job untouched with its memberships, whether the job runs through or not. */
  lemma PurgeSpares(db: Tables, now: Time, start: Id, stop: Option<Id>, o: Id)
    requires Inv(db) && o in db.orgs
    requires db.orgs[o].deletedAt.None? || db.orgs[o].deletedAt.value > now - 30 * DAY
    ensures var later := S.Purge(db, now, start, stop).db;
            && o in later.orgs && later.orgs[o] == db.orgs[o]
            && (forall k :: k in db.memberships && db.memberships[k].org == o ==>
                  k in later.memberships && later.memberships[k] == db.memberships[k])
  {
    var os := S.PurgePrefix(db, now, start, stop);
    assert o !in os;
    var first := S.DropOrganizations(db, os);
    DroppedIsPurged(db, os);
    DropOrganizationsKeepsInv(db, os);
    SecondStepNeverFails(first);
    OrphansTakeNoSeat(first);
    hide Inv, S.DropOrganizations, S.DropUsers, S.Orphans, S.PurgePrefix, S.DueBetween, S.PurgeOrphans;
  }
}
