/** The bulk-write payload of a list role's permissions: two parallel arrays, one of
    list IDs and one of fixed-width permission rows, built from the desired state. */
module Permissions {
  import opened Models

  /** Every permission row has one slot per permission of the enum {list:get, list:manage}. */
  const PermSlots: nat := 2

  /** The two parallel arrays handed to the upsert statement. */
  datatype Payload = Payload(listIDs: seq<int>, listPerms: seq<seq<string>>)

  /** An entry that grants something; entries with no permission are pruned. */
  predicate Granted(p: ListPermission) {
    |p.permissions| > 0
  }

  /** The row for one entry: its first PermSlots permissions, the missing slots
      padded with "", anything beyond the last slot dropped. */
  function PadPermissions(ps: seq<string>): (row: seq<string>)
    ensures |row| == PermSlots
    ensures forall k :: 0 <= k < PermSlots && k < |ps| ==> row[k] == ps[k]
    ensures forall k :: |ps| <= k < PermSlots ==> row[k] == ""
  {
    [if 0 < |ps| then ps[0] else "", if 1 < |ps| then ps[1] else ""]
  }

  /** The number of entries of `lp` that grant something. */
  function CountGranted(lp: seq<ListPermission>): (n: nat)
    ensures n <= |lp|
  {
    if lp == [] then 0
    else CountGranted(lp[..|lp| - 1]) + (if Granted(lp[|lp| - 1]) then 1 else 0)
  }

  /** The payload for the desired state `lp`, built entry by entry in input order. */
  function ListPayload(lp: seq<ListPermission>): (pl: Payload)
    ensures |pl.listIDs| == |pl.listPerms| == CountGranted(lp)
    ensures forall i :: 0 <= i < |pl.listPerms| ==> |pl.listPerms[i]| == PermSlots
  {
    if lp == [] then Payload([], [])
    else
      var init, p := ListPayload(lp[..|lp| - 1]), lp[|lp| - 1];
      if Granted(p) then Payload(init.listIDs + [p.id], init.listPerms + [PadPermissions(p.permissions)])
      else init
  }

  /** Order preservation, forwards: the entry at index j, when it grants something,
      lands at position i of both arrays, where i is the number of granting entries
      before it. */
  lemma {:induction false} PayloadEntryAt(lp: seq<ListPermission>, j: nat)
    requires j < |lp| && Granted(lp[j])
    ensures CountGranted(lp[..j]) < CountGranted(lp)
    ensures ListPayload(lp).listIDs[CountGranted(lp[..j])] == lp[j].id
    ensures ListPayload(lp).listPerms[CountGranted(lp[..j])] == PadPermissions(lp[j].permissions)
  {
    var init := lp[..|lp| - 1];
    if j < |lp| - 1 {
      assert init[..j] == lp[..j];
      PayloadEntryAt(init, j);
    } else {
      assert init == lp[..j];
    }
  }

  /** Order preservation, backwards: every position i of the arrays comes from a
      granting entry j of the input, namely the one with i granting entries before it. */
  lemma {:induction false} PayloadSourceOf(lp: seq<ListPermission>, i: nat)
    requires i < |ListPayload(lp).listIDs|
    ensures exists j :: (0 <= j < |lp| && Granted(lp[j]) && CountGranted(lp[..j]) == i &&
                         ListPayload(lp).listIDs[i] == lp[j].id &&
                         ListPayload(lp).listPerms[i] == PadPermissions(lp[j].permissions))
  {
    var init := lp[..|lp| - 1];
    if i < |ListPayload(init).listIDs| {
      PayloadSourceOf(init, i);
      var j :| 0 <= j < |init| && Granted(init[j]) && CountGranted(init[..j]) == i &&
        ListPayload(init).listIDs[i] == init[j].id &&
        ListPayload(init).listPerms[i] == PadPermissions(init[j].permissions);
      assert init[..j] == lp[..j];
    } else {
      assert lp[..|lp| - 1] == init;
    }
  }

  /** The payload of a concatenation is the concatenation of the payloads. */
  lemma {:induction false} PayloadConcat(a: seq<ListPermission>, b: seq<ListPermission>)
    ensures ListPayload(a + b).listIDs == ListPayload(a).listIDs + ListPayload(b).listIDs
    ensures ListPayload(a + b).listPerms == ListPayload(a).listPerms + ListPayload(b).listPerms
  {
    if b == [] {
      assert a + b == a;
    } else {
      var b' := b[..|b| - 1];
      assert (a + b)[..|a + b| - 1] == a + b';
      PayloadConcat(a, b');
    }
  }

  /** An entry that grants nothing contributes nothing to either array, wherever it stands. */
  lemma EmptyEntryContributesNothing(a: seq<ListPermission>, e: ListPermission, b: seq<ListPermission>)
    requires !Granted(e)
    ensures ListPayload(a + [e] + b) == ListPayload(a + b)
  {
    PayloadConcat(a + [e], b);
    PayloadConcat(a, b);
    assert (a + [e])[..|a + [e]| - 1] == a;
  }

  /** The payload is empty exactly when no entry grants anything: the upsert is then
      sent two empty arrays. */
  lemma {:induction false} EmptyPayloadIffNothingGranted(lp: seq<ListPermission>)
    ensures ListPayload(lp).listIDs == [] <==> forall j :: 0 <= j < |lp| ==> !Granted(lp[j])
  {
    if ListPayload(lp).listIDs != [] {
      PayloadSourceOf(lp, 0);
    } else {
      forall j | 0 <= j < |lp| ensures !Granted(lp[j]) {
        if Granted(lp[j]) { PayloadEntryAt(lp, j); }
      }
    }
  }

  /** Permissions beyond the last slot are not copied; fewer are kept in order. */
  lemma PadKeepsLeadingPermissions(ps: seq<string>)
    ensures |ps| >= PermSlots ==> PadPermissions(ps) == ps[..PermSlots]
    ensures |ps| <= PermSlots ==> PadPermissions(ps)[..|ps|] == ps
  {
  }

  /** A role granted view and manage on list 3 and nothing on list 7 sends one row for
      list 3; narrowing it to view only sends the same list with the manage slot empty. */
  lemma EditorsPayloads()
    ensures ListPayload([ListPermission(3, "", ["list:get", "list:manage"]), ListPermission(7, "", [])])
            == Payload([3], [["list:get", "list:manage"]])
    ensures ListPayload([ListPermission(3, "", ["list:get"])]) == Payload([3], [["list:get", ""]])
  {
  }
}
