/**
 * The hospital dashboard's two tables, the blood inventory and the pending
 * blood requests, and the one action that changes them: approving a request
 * allocates its units from every inventory row of its blood type (never
 * below zero) and drops the request from the pending list.
 */
module HospitalDashboard {

  import opened Wrappers
  import opened BloodTypeSelector

  /** One inventory row. `status` is set by hand in the seed data; nothing derives it from `units`. */
  datatype InventoryItem = InventoryItem(bloodType: BloodType, units: int, status: string, expiry: string)

  /** One pending request for blood. */
  datatype Request = Request(
    id: int,
    patient: string,
    bloodType: BloodType,
    units: int,
    urgency: string,
    requestedAt: string,
    department: string,
    doctor: string)

  const SeedInventory: seq<InventoryItem> := [
    InventoryItem(BloodType(O, Pos), 25, "Normal", "2024-02-15"),
    InventoryItem(BloodType(O, Neg), 8, "Low", "2024-02-10"),
    InventoryItem(BloodType(A, Pos), 18, "Normal", "2024-02-20"),
    InventoryItem(BloodType(A, Neg), 5, "Critical", "2024-02-08"),
    InventoryItem(BloodType(B, Pos), 12, "Normal", "2024-02-18"),
    InventoryItem(BloodType(B, Neg), 3, "Critical", "2024-02-12"),
    InventoryItem(BloodType(AB, Pos), 7, "Low", "2024-02-14"),
    InventoryItem(BloodType(AB, Neg), 2, "Critical", "2024-02-09")
  ]

  const SeedRequests: seq<Request> := [
    Request(1, "Emergency Case #1234", BloodType(O, Neg), 2, "Critical", "2024-01-15 14:30", "Emergency", "Dr. Smith"),
    Request(2, "Surgery Patient #5678", BloodType(A, Pos), 1, "High", "2024-01-15 12:15", "Surgery", "Dr. Johnson"),
    Request(3, "Treatment #9012", BloodType(B, Pos), 1, "Medium", "2024-01-15 09:45", "Oncology", "Dr. Williams")
  ]

  // ----- the status badge colour -----

  const CriticalColor := "text-red-500 bg-red-50 border-red-200"
  const LowColor := "text-yellow-600 bg-yellow-50 border-yellow-200"
  const NormalColor := "text-green-600 bg-green-50 border-green-200"
  const DefaultColor := "text-gray-600 bg-gray-50 border-gray-200"

  /** The colour classes of an inventory row: one per known status, grey for any other string. */
  function StatusColor(status: string): (c: string)
    ensures c == DefaultColor <==> status !in {"Critical", "Low", "Normal"}
    ensures status == "Critical" ==> c == CriticalColor
    ensures status == "Low" ==> c == LowColor
    ensures status == "Normal" ==> c == NormalColor
  {
    if status == "Critical" then CriticalColor
    else if status == "Low" then LowColor
    else if status == "Normal" then NormalColor
    else DefaultColor
  }

  // ----- derived figures -----

  /** The number of rows whose status is exactly "Critical" (the shortage banner and the "Critical Types" card). */
  function CountCritical(inv: seq<InventoryItem>): (n: nat)
    ensures n <= |inv|
    ensures n == 0 <==> forall i :: 0 <= i < |inv| ==> inv[i].status != "Critical"
  {
    if inv == [] then 0
    else (if inv[0].status == "Critical" then 1 else 0) + CountCritical(inv[1..])
  }

  ghost predicate AllNonNegative(inv: seq<InventoryItem>)
  {
    forall i :: 0 <= i < |inv| ==> inv[i].units >= 0
  }

  /** The "Total Blood Units" card: the sum of every row's units. */
  function TotalUnits(inv: seq<InventoryItem>): (total: int)
    ensures AllNonNegative(inv) ==> total >= 0
  {
    if inv == [] then 0 else inv[0].units + TotalUnits(inv[1..])
  }

  // ----- approving a request: the inventory side -----

  /** One row after `units` of blood type `t` are taken from the inventory. */
  function AllocateItem(item: InventoryItem, t: BloodType, units: int): InventoryItem
  {
    if item.bloodType == t then item.(units := if item.units - units > 0 then item.units - units else 0)
    else item
  }

  /** The inventory after `units` of blood type `t` are taken from every row of that type. */
  function Allocate(inv: seq<InventoryItem>, t: BloodType, units: int): (r: seq<InventoryItem>)
    ensures |r| == |inv|
  {
    if inv == [] then [] else [AllocateItem(inv[0], t, units)] + Allocate(inv[1..], t, units)
  }

  /**
   * Row by row: a row of the request's type keeps its type, status and
   * expiry and has max(0, units - requested) units; any other row is as it was.
   */
  lemma {:induction false} AllocateAt(inv: seq<InventoryItem>, t: BloodType, units: int, i: nat)
    requires i < |inv|
    ensures Allocate(inv, t, units)[i].bloodType == inv[i].bloodType
    ensures Allocate(inv, t, units)[i].status == inv[i].status
    ensures Allocate(inv, t, units)[i].expiry == inv[i].expiry
    ensures inv[i].bloodType == t ==>
      Allocate(inv, t, units)[i].units == (if inv[i].units - units > 0 then inv[i].units - units else 0)
    ensures inv[i].bloodType != t ==> Allocate(inv, t, units)[i] == inv[i]
  {
    if i > 0 {
      AllocateAt(inv[1..], t, units, i - 1);
    }
  }

  /** With no row of the request's type, the inventory is left exactly as it was. */
  lemma {:induction false} AllocateNoMatch(inv: seq<InventoryItem>, t: BloodType, units: int)
    requires forall i :: 0 <= i < |inv| ==> inv[i].bloodType != t
    ensures Allocate(inv, t, units) == inv
  {
    if inv != [] {
      AllocateNoMatch(inv[1..], t, units);
    }
  }

  /** The floor at zero: if no row was negative before an allocation, none is after it. */
  lemma AllocateNonNegative(inv: seq<InventoryItem>, t: BloodType, units: int)
    requires AllNonNegative(inv)
    ensures AllNonNegative(Allocate(inv, t, units))
  {
    forall i | 0 <= i < |inv|
      ensures Allocate(inv, t, units)[i].units >= 0
    {
      AllocateAt(inv, t, units, i);
    }
  }

  /** Allocation never touches a status, so the critical count stays the same. */
  lemma {:induction false} AllocateKeepsCriticalCount(inv: seq<InventoryItem>, t: BloodType, units: int)
    ensures CountCritical(Allocate(inv, t, units)) == CountCritical(inv)
  {
    if inv != [] {
      AllocateKeepsCriticalCount(inv[1..], t, units);
      assert Allocate(inv, t, units)[1..] == Allocate(inv[1..], t, units);
    }
  }

  /** Taking a non-negative number of units from non-negative rows never raises the total. */
  lemma {:induction false} AllocateTotalNonIncreasing(inv: seq<InventoryItem>, t: BloodType, units: int)
    requires AllNonNegative(inv)
    requires units >= 0
    ensures TotalUnits(Allocate(inv, t, units)) <= TotalUnits(inv)
  {
    if inv != [] {
      AllocateTotalNonIncreasing(inv[1..], t, units);
      assert Allocate(inv, t, units)[1..] == Allocate(inv[1..], t, units);
    }
  }

  // ----- approving a request: the pending side -----

  /** The first pending request carrying `id`, as `Array.prototype.find` returns it. */
  function FindRequest(reqs: seq<Request>, id: int): (r: Option<Request>)
    ensures r.Some? ==> r.value in reqs && r.value.id == id
    ensures r.None? <==> forall i :: 0 <= i < |reqs| ==> reqs[i].id != id
  {
    if reqs == [] then None
    else if reqs[0].id == id then Some(reqs[0])
    else FindRequest(reqs[1..], id)
  }

  /** What `find` returns is the request at the first position carrying the id. */
  lemma {:induction false} FindRequestIsFirst(reqs: seq<Request>, id: int) returns (k: nat)
    requires FindRequest(reqs, id).Some?
    ensures k < |reqs| && reqs[k] == FindRequest(reqs, id).value
    ensures forall j :: 0 <= j < k ==> reqs[j].id != id
  {
    if reqs[0].id == id {
      k := 0;
    } else {
      var k' := FindRequestIsFirst(reqs[1..], id);
      k := k' + 1;
    }
  }

  /** The pending list without the requests carrying `id`, in their original order. */
  function RemoveRequest(reqs: seq<Request>, id: int): (r: seq<Request>)
    ensures |r| <= |reqs|
    ensures forall q :: q in r <==> q in reqs && q.id != id
    ensures (forall i :: 0 <= i < |reqs| ==> reqs[i].id != id) ==> r == reqs
  {
    if reqs == [] then []
    else if reqs[0].id == id then RemoveRequest(reqs[1..], id)
    else [reqs[0]] + RemoveRequest(reqs[1..], id)
  }

  /** Removal works piece by piece: it keeps the relative order of whatever survives. */
  lemma {:induction false} RemoveRequestAppend(a: seq<Request>, b: seq<Request>, id: int)
    ensures RemoveRequest(a + b, id) == RemoveRequest(a, id) + RemoveRequest(b, id)
  {
    if a == [] {
      assert a + b == b;
    } else {
      assert (a + b)[1..] == a[1..] + b;
      RemoveRequestAppend(a[1..], b, id);
    }
  }

  ghost predicate UniqueIds(reqs: seq<Request>)
  {
    forall i, j :: 0 <= i < j < |reqs| ==> reqs[i].id != reqs[j].id
  }

  /** With unique ids, removing the id found at position k deletes exactly that one entry. */
  lemma {:induction false} RemoveUniqueAt(reqs: seq<Request>, k: nat)
    requires UniqueIds(reqs)
    requires k < |reqs|
    ensures RemoveRequest(reqs, reqs[k].id) == reqs[..k] + reqs[k + 1..]
    ensures |RemoveRequest(reqs, reqs[k].id)| == |reqs| - 1
  {
    var id := reqs[k].id;
    var tail := reqs[1..];
    if k == 0 {
      assert forall i :: 0 <= i < |tail| ==> tail[i].id != id by {
        forall i | 0 <= i < |tail| ensures tail[i].id != id {
          assert tail[i] == reqs[i + 1];
        }
      }
      assert RemoveRequest(tail, id) == tail;
    } else {
      assert UniqueIds(tail) by {
        forall i, j | 0 <= i < j < |tail| ensures tail[i].id != tail[j].id {
          assert tail[i] == reqs[i + 1] && tail[j] == reqs[j + 1];
        }
      }
      assert tail[k - 1] == reqs[k];
      RemoveUniqueAt(tail, k - 1);
      assert reqs[0].id != id;
      assert reqs[..k] == [reqs[0]] + tail[..k - 1];
      assert reqs[k + 1..] == tail[k..];
    }
  }

  lemma {:induction false} RemoveKeepsUnique(reqs: seq<Request>, id: int)
    requires UniqueIds(reqs)
    ensures UniqueIds(RemoveRequest(reqs, id))
  {
    if reqs != [] {
      var tail := reqs[1..];
      assert UniqueIds(tail) by {
        forall i, j | 0 <= i < j < |tail| ensures tail[i].id != tail[j].id {
          assert tail[i] == reqs[i + 1] && tail[j] == reqs[j + 1];
        }
      }
      RemoveKeepsUnique(tail, id);
      var rest := RemoveRequest(tail, id);
      if reqs[0].id != id {
        forall i | 0 <= i < |rest| ensures rest[i].id != reqs[0].id {
          assert rest[i] in tail;
          var j :| 0 <= j < |tail| && tail[j] == rest[i];
          assert tail[j] == reqs[j + 1];
        }
        var r := [reqs[0]] + rest;
        forall i, j | 0 <= i < j < |r| ensures r[i].id != r[j].id {
          assert r[j] == rest[j - 1];
          if i > 0 {
            assert r[i] == rest[i - 1];
          }
        }
      }
    }
  }

  // ----- the seed tables -----

  lemma SeedFacts()
    ensures UniqueIds(SeedRequests)
    ensures AllNonNegative(SeedInventory)
    ensures forall i :: 0 <= i < |SeedRequests| ==> SeedRequests[i].units > 0
    ensures CountCritical(SeedInventory) == 3
    ensures TotalUnits(SeedInventory) == 80
  {
  }

  /** Approving request 3 (one unit of B+) from the seed leaves 11 B+ units and two pending requests. */
  lemma SeedApproveExample()
    ensures FindRequest(SeedRequests, 3) == Some(SeedRequests[2])
    ensures Allocate(SeedInventory, BloodType(B, Pos), 1)[4].units == 11
    ensures |RemoveRequest(SeedRequests, 3)| == 2
  {
    AllocateAt(SeedInventory, BloodType(B, Pos), 1, 4);
    SeedFacts();
    RemoveUniqueAt(SeedRequests, 2);
  }

  // ----- the dashboard's state -----

  class Dashboard {
    var bloodInventory: seq<InventoryItem>
    var pendingRequests: seq<Request>

    /**
     * What every reachable state of the dashboard satisfies: the seed's
     * non-negative unit counts and its distinct request ids.
     */
    ghost predicate Valid()
      reads this
    {
      && AllNonNegative(bloodInventory)
      && UniqueIds(pendingRequests)
      && forall i :: 0 <= i < |pendingRequests| ==> pendingRequests[i].units >= 0
    }

    constructor ()
      ensures bloodInventory == SeedInventory && pendingRequests == SeedRequests
      ensures Valid()
    {
      bloodInventory := SeedInventory;
      pendingRequests := SeedRequests;
      SeedFacts();
    }

    function CriticalTypes(): (n: nat)
      reads this
      ensures n <= |bloodInventory|
    {
      CountCritical(bloodInventory)
    }

    function Total(): (t: int)
      reads this
      ensures Valid() ==> t >= 0
    {
      TotalUnits(bloodInventory)
    }

    /** The "Pending Requests" card: how many requests await approval. */
    function PendingCount(): (n: nat)
      reads this
      ensures n == 0 <==> pendingRequests == []
      ensures forall id :: FindRequest(pendingRequests, id).Some? ==> n > 0
    {
      |pendingRequests|
    }

    /**
     * Approves the pending request carrying `requestId` and returns it (the
     * request the confirmation message is about); None, and no change at
     * all, when no pending request carries that id.
     */
    method ApproveRequest(requestId: int) returns (approved: Option<Request>)
      modifies this
      ensures approved == FindRequest(old(pendingRequests), requestId)
      ensures approved.None? ==>
        bloodInventory == old(bloodInventory) && pendingRequests == old(pendingRequests)
      ensures approved.Some? ==>
        && bloodInventory == Allocate(old(bloodInventory), approved.value.bloodType, approved.value.units)
        && pendingRequests == RemoveRequest(old(pendingRequests), requestId)
      ensures forall q :: q in pendingRequests ==> q.id != requestId
      ensures CriticalTypes() == old(CriticalTypes())
      ensures old(Valid()) ==> Valid()
      ensures old(Valid()) ==> Total() <= old(Total())
      ensures old(Valid()) && approved.Some? ==> PendingCount() == old(PendingCount()) - 1
    {
      approved := FindRequest(pendingRequests, requestId);
      if approved.Some? {
        var request := approved.value;
        ghost var wasValid := Valid();
        ghost var k := FindRequestIsFirst(pendingRequests, requestId);
        AllocateKeepsCriticalCount(bloodInventory, request.bloodType, request.units);
        if wasValid {
          AllocateNonNegative(bloodInventory, request.bloodType, request.units);
          AllocateTotalNonIncreasing(bloodInventory, request.bloodType, request.units);
          RemoveKeepsUnique(pendingRequests, requestId);
          RemoveUniqueAt(pendingRequests, k);
        }
        bloodInventory := Allocate(bloodInventory, request.bloodType, request.units);
        pendingRequests := RemoveRequest(pendingRequests, requestId);
      }
    }
  }
}
