/**
 The uniqueness check on local tenant records: account ids, tenant ids and client ids are collected in three sets
 while the records are scanned, and the first id that is already there is reported.
 */
module CustomerTenants {
  import opened OrderedText

  datatype Tenant = Tenant(accountId: string, tenantId: string, clients: seq<string>)

  /** An id together with what it identifies. */
  datatype Id = Account(text: string) | TenantId(text: string) | Client(text: string)

  datatype Outcome = Fine | Duplicate(id: Id)

  function ClientsOf(clients: seq<string>): (ids: seq<Id>)
    ensures |ids| == |clients| && forall i :: 0 <= i < |ids| ==> ids[i] == Client(clients[i])
  {
    seq(|clients|, i requires 0 <= i < |clients| => Client(clients[i]))
  }

  function IdsOf(t: Tenant): seq<Id> {
    [Account(t.accountId), TenantId(t.tenantId)] + ClientsOf(t.clients)
  }

  /** All ids in the order in which they are looked at. */
  function Scan(tenants: seq<Tenant>): seq<Id> {
    if tenants == [] then [] else Scan(tenants[..|tenants| - 1]) + IdsOf(tenants[|tenants| - 1])
  }

  /** No two of the first `n` ids are the same. */
  ghost predicate UniqueUpTo(scan: seq<Id>, n: nat)
    requires n <= |scan|
  {
    forall i, j :: 0 <= i < j < n ==> scan[i] != scan[j]
  }

  ghost predicate OccursBefore(scan: seq<Id>, n: nat, id: Id)
    requires n <= |scan|
  {
    exists i :: 0 <= i < n && scan[i] == id
  }

  /** `id` is the first id of the scan that has occurred before. */
  ghost predicate IsFirstRepeat(scan: seq<Id>, id: Id) {
    exists j :: 0 <= j < |scan| && scan[j] == id && OccursBefore(scan, j, id) && UniqueUpTo(scan, j)
  }

  lemma {:induction false} ScanPrefix(tenants: seq<Tenant>, i: nat)
    requires i < |tenants|
    ensures Scan(tenants[..i]) + IdsOf(tenants[i]) <= Scan(tenants)
    ensures Scan(tenants[..i + 1]) == Scan(tenants[..i]) + IdsOf(tenants[i])
    decreases |tenants|
  {
    assert tenants[..i + 1][..i] == tenants[..i];
    if i < |tenants| - 1 {
      var front := tenants[..|tenants| - 1];
      assert front[..i] == tenants[..i] && front[..i + 1] == tenants[..i + 1];
      ScanPrefix(front, i);
    }
  }

  predicate HoldsClients(scan: seq<Id>, n: nat, clients: seq<string>) {
    n + |clients| <= |scan| && forall k :: 0 <= k < |clients| ==> scan[n + k] == Client(clients[k])
  }

  /** Where the ids of record `i` stand in the scan. */
  lemma ScanAt(tenants: seq<Tenant>, i: nat)
    requires i < |tenants|
    ensures var n, scan := |Scan(tenants[..i])|, Scan(tenants);
      && n + 2 <= |scan|
      && scan[n] == Account(tenants[i].accountId) && scan[n + 1] == TenantId(tenants[i].tenantId)
      && HoldsClients(scan, n + 2, tenants[i].clients)
      && |Scan(tenants[..i + 1])| == n + 2 + |tenants[i].clients|
  {
    ScanPrefix(tenants, i);
    var start, ids, scan := Scan(tenants[..i]), IdsOf(tenants[i]), Scan(tenants);
    PartAt(start, ids, scan, 0);
    PartAt(start, ids, scan, 1);
    forall k | 0 <= k < |tenants[i].clients| ensures scan[|start| + 2 + k] == Client(tenants[i].clients[k]) {
      PartAt(start, ids, scan, 2 + k);
    }
  }

  lemma PartAt(start: seq<Id>, ids: seq<Id>, scan: seq<Id>, k: nat)
    requires start + ids <= scan && k < |ids|
    ensures scan[|start| + k] == ids[k]
  {
    assert (start + ids)[|start| + k] == ids[k];
  }

  /** The three sets hold exactly the first `n` ids, which are without repeat. */
  ghost predicate Passed(scan: seq<Id>, n: nat, a: set<string>, t: set<string>, c: set<string>) {
    && n <= |scan| && UniqueUpTo(scan, n)
    && (forall x :: x in a <==> OccursBefore(scan, n, Account(x)))
    && (forall x :: x in t <==> OccursBefore(scan, n, TenantId(x)))
    && (forall x :: x in c <==> OccursBefore(scan, n, Client(x)))
  }

  /** The inner loop: the clients of one record. */
  method CollectClients(ghost scan: seq<Id>, ghost n: nat, clients: seq<string>, ghost a: set<string>,
                        ghost t: set<string>, before: set<string>)
    returns (outcome: Outcome, clientIds: set<string>, ghost m: nat)
    requires HoldsClients(scan, n, clients) && Passed(scan, n, a, t, before)
    ensures outcome.Fine? ==> m == n + |clients| && Passed(scan, m, a, t, clientIds)
    ensures outcome.Duplicate? ==> IsFirstRepeat(scan, outcome.id) && !NoRepeats(scan)
  {
    clientIds := before;
    m := n;
    for k := 0 to |clients|
      invariant m == n + k && Passed(scan, m, a, t, clientIds)
    {
      if clients[k] in clientIds {
        return Duplicate(Client(clients[k])), clientIds, m;
      }
      m := m + 1;
      clientIds := clientIds + {clients[k]};
    }
    outcome := Fine;
  }

  /** The body of the outer loop: one record. */
  method CollectRecord(ghost scan: seq<Id>, ghost n: nat, tenant: Tenant, a: set<string>, t: set<string>,
                       c: set<string>)
    returns (outcome: Outcome, accountIds: set<string>, tenantIds: set<string>, clientIds: set<string>, ghost m: nat)
    requires Passed(scan, n, a, t, c) && n + 2 <= |scan|
    requires scan[n] == Account(tenant.accountId) && scan[n + 1] == TenantId(tenant.tenantId)
    requires HoldsClients(scan, n + 2, tenant.clients)
    ensures outcome.Fine? ==> m == n + 2 + |tenant.clients| && Passed(scan, m, accountIds, tenantIds, clientIds)
    ensures outcome.Duplicate? ==> IsFirstRepeat(scan, outcome.id) && !NoRepeats(scan)
  {
    accountIds, tenantIds, clientIds, m := a, t, c, n;
    if tenant.accountId in accountIds {
      outcome := Duplicate(Account(tenant.accountId));
      return;
    }
    assert Passed(scan, n + 1, a + {tenant.accountId}, t, c);
    if tenant.tenantId in tenantIds {
      outcome := Duplicate(TenantId(tenant.tenantId));
      return;
    }
    accountIds := accountIds + {tenant.accountId};
    tenantIds := tenantIds + {tenant.tenantId};
    outcome, clientIds, m := CollectClients(scan, n + 2, tenant.clients, accountIds, tenantIds, clientIds);
  }

  method ValidateUniqueIds(tenants: seq<Tenant>) returns (outcome: Outcome)
    ensures outcome.Fine? <==> NoRepeats(Scan(tenants))
    ensures outcome.Duplicate? ==> IsFirstRepeat(Scan(tenants), outcome.id)
  {
    var accountIds, tenantIds, clientIds: set<string> := {}, {}, {};
    ghost var scan, n := Scan(tenants), 0;
    for i := 0 to |tenants|
      invariant n == |Scan(tenants[..i])| && Passed(scan, n, accountIds, tenantIds, clientIds)
    {
      ScanAt(tenants, i);
      outcome, accountIds, tenantIds, clientIds, n :=
        CollectRecord(scan, n, tenants[i], accountIds, tenantIds, clientIds);
      if outcome.Duplicate? {
        return;
      }
    }
    assert tenants[..|tenants|] == tenants;
    outcome := Fine;
  }

  // ----- what the scan says about the records ---------------------------------------------------

  /** The first repeat is unique, so the reported id is determined by the records. */
  lemma FirstRepeatUnique(scan: seq<Id>, a: Id, b: Id)
    requires IsFirstRepeat(scan, a) && IsFirstRepeat(scan, b)
    ensures a == b
  {
    var i :| 0 <= i < |scan| && scan[i] == a && OccursBefore(scan, i, a) && UniqueUpTo(scan, i);
    var j :| 0 <= j < |scan| && scan[j] == b && OccursBefore(scan, j, b) && UniqueUpTo(scan, j);
  }

  function Accounts(tenants: seq<Tenant>): (r: seq<string>)
    ensures |r| == |tenants| && forall i :: 0 <= i < |r| ==> r[i] == tenants[i].accountId
  {
    seq(|tenants|, i requires 0 <= i < |tenants| => tenants[i].accountId)
  }

  function TenantIds(tenants: seq<Tenant>): (r: seq<string>)
    ensures |r| == |tenants| && forall i :: 0 <= i < |r| ==> r[i] == tenants[i].tenantId
  {
    seq(|tenants|, i requires 0 <= i < |tenants| => tenants[i].tenantId)
  }

  function Clients(tenants: seq<Tenant>): seq<string> {
    if tenants == [] then [] else Clients(tenants[..|tenants| - 1]) + tenants[|tenants| - 1].clients
  }

  lemma AppendUnique<T>(s: seq<T>, t: seq<T>)
    ensures NoRepeats(s + t) <==> NoRepeats(s) && NoRepeats(t) && forall x :: x in s ==> x !in t
  {
    var r := s + t;
    if NoRepeats(r) {
      forall i, j | 0 <= i < j < |s| ensures s[i] != s[j] {
        assert r[i] != r[j];
      }
      forall i, j | 0 <= i < j < |t| ensures t[i] != t[j] {
        assert r[|s| + i] != r[|s| + j];
      }
      forall x | x in s ensures x !in t {
        var i :| 0 <= i < |s| && s[i] == x;
        forall j | 0 <= j < |t| ensures t[j] != x {
          assert r[i] != r[|s| + j];
        }
      }
    }
    if NoRepeats(s) && NoRepeats(t) && forall x :: x in s ==> x !in t {
      forall i, j | 0 <= i < j < |r| ensures r[i] != r[j] {
        assert i < |s| <= j ==> r[i] in s && r[j] in t;
      }
    }
  }

  /** The ids of each kind are those of the list of that kind. */
  lemma {:induction false} ScanMembers(tenants: seq<Tenant>, x: string)
    ensures Account(x) in Scan(tenants) <==> x in Accounts(tenants)
    ensures TenantId(x) in Scan(tenants) <==> x in TenantIds(tenants)
    ensures Client(x) in Scan(tenants) <==> x in Clients(tenants)
  {
    if tenants != [] {
      var front, last := tenants[..|tenants| - 1], tenants[|tenants| - 1];
      ScanMembers(front, x);
      assert Accounts(tenants) == Accounts(front) + [last.accountId];
      assert TenantIds(tenants) == TenantIds(front) + [last.tenantId];
      RecordMembers(last, x);
    }
  }

  lemma RecordMembers(t: Tenant, x: string)
    ensures Account(x) in IdsOf(t) <==> x == t.accountId
    ensures TenantId(x) in IdsOf(t) <==> x == t.tenantId
    ensures Client(x) in IdsOf(t) <==> x in t.clients
  {
    var ids := ClientsOf(t.clients);
    assert Client(x) in ids <==> x in t.clients by {
      if x in t.clients {
        var k :| 0 <= k < |t.clients| && t.clients[k] == x;
        assert ids[k] == Client(x);
      }
    }
  }

  lemma RecordUnique(t: Tenant)
    ensures NoRepeats(IdsOf(t)) <==> NoRepeats(t.clients)
  {
    var ids := ClientsOf(t.clients);
    AppendUnique([Account(t.accountId), TenantId(t.tenantId)], ids);
    assert NoRepeats(ids) <==> NoRepeats(t.clients) by {
      if NoRepeats(ids) {
        forall i, j | 0 <= i < j < |t.clients| ensures t.clients[i] != t.clients[j] {
          assert ids[i] != ids[j];
        }
      }
    }
  }

  lemma Apart(front: seq<Tenant>, last: Tenant)
    ensures (forall id :: id in Scan(front) ==> id !in IdsOf(last)) <==>
      last.accountId !in Accounts(front) && last.tenantId !in TenantIds(front)
      && forall x :: x in Clients(front) ==> x !in last.clients
  {
    forall x ensures Account(x) in Scan(front) <==> x in Accounts(front) {
      ScanMembers(front, x);
    }
    forall x ensures TenantId(x) in Scan(front) <==> x in TenantIds(front) {
      ScanMembers(front, x);
    }
    forall x ensures Client(x) in Scan(front) <==> x in Clients(front) {
      ScanMembers(front, x);
    }
    forall x ensures Client(x) in IdsOf(last) <==> x in last.clients {
      RecordMembers(last, x);
    }
    RecordMembers(last, last.accountId);
    RecordMembers(last, last.tenantId);
  }

  lemma KindsGrow(front: seq<Tenant>, last: Tenant, tenants: seq<Tenant>)
    requires tenants != [] && front == tenants[..|tenants| - 1] && last == tenants[|tenants| - 1]
    ensures NoRepeats(Accounts(tenants)) <==> NoRepeats(Accounts(front)) && last.accountId !in Accounts(front)
    ensures NoRepeats(TenantIds(tenants)) <==> NoRepeats(TenantIds(front)) && last.tenantId !in TenantIds(front)
    ensures NoRepeats(Clients(tenants)) <==>
      NoRepeats(Clients(front)) && NoRepeats(last.clients)
      && forall x :: x in Clients(front) ==> x !in last.clients
  {
    assert Accounts(tenants) == Accounts(front) + [last.accountId];
    AppendUnique(Accounts(front), [last.accountId]);
    assert TenantIds(tenants) == TenantIds(front) + [last.tenantId];
    AppendUnique(TenantIds(front), [last.tenantId]);
    AppendUnique(Clients(front), last.clients);
  }

  /** The check passes exactly when account ids, tenant ids and the joined client lists are each without repeat. */
  lemma {:induction false} UniqueIffEachKindUnique(tenants: seq<Tenant>)
    ensures NoRepeats(Scan(tenants)) <==>
      NoRepeats(Accounts(tenants)) && NoRepeats(TenantIds(tenants)) && NoRepeats(Clients(tenants))
  {
    if tenants != [] {
      var front, last := tenants[..|tenants| - 1], tenants[|tenants| - 1];
      UniqueIffEachKindUnique(front);
      AppendUnique(Scan(front), IdsOf(last));
      RecordUnique(last);
      Apart(front, last);
      KindsGrow(front, last, tenants);
    }
  }

  lemma {:induction false} ClientsHold(tenants: seq<Tenant>, i: nat)
    requires i < |tenants|
    ensures Clients(tenants[..i]) + tenants[i].clients <= Clients(tenants)
    decreases |tenants|
  {
    if i < |tenants| - 1 {
      var front := tenants[..|tenants| - 1];
      assert front[..i] == tenants[..i];
      ClientsHold(front, i);
    }
  }

  lemma {:induction false} EarlierClient(tenants: seq<Tenant>, i: nat, x: string)
    requires i < |tenants| && x in tenants[i].clients
    ensures x in Clients(tenants)
    decreases |tenants|
  {
    if i < |tenants| - 1 {
      EarlierClient(tenants[..|tenants| - 1], i, x);
    }
  }

  /** A client belongs to at most one tenant, and stands in its list once. */
  lemma {:induction false} ClientDeterminesTenant(tenants: seq<Tenant>, i: nat, j: nat, x: string)
    requires NoRepeats(Scan(tenants)) && i < |tenants| && j < |tenants|
    requires x in tenants[i].clients && x in tenants[j].clients
    ensures i == j
  {
    UniqueIffEachKindUnique(tenants);
    NotInLater(tenants, i, j, x);
    NotInLater(tenants, j, i, x);
  }

  lemma NotInLater(tenants: seq<Tenant>, i: nat, j: nat, x: string)
    requires NoRepeats(Clients(tenants)) && i < |tenants| && j < |tenants| && x in tenants[i].clients
    ensures i < j ==> x !in tenants[j].clients
  {
    if i < j {
      ClientsHold(tenants, j);
      EarlierClient(tenants[..j], i, x);
      AppendUnique(Clients(tenants[..j]), tenants[j].clients);
    }
  }
}
