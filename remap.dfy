/** DCMSystem.UIDMap: the per-study table that replaces each original Study or
    Series Instance UID by a newly drawn one, drawing only on a miss. */
module Remap {
  import opened Ids

  /** Every entry of a survives unchanged in b. */
  ghost predicate Extends(a: map<string, string>, b: map<string, string>)
  {
    a.Keys <= b.Keys && forall k :: k in a ==> b[k] == a[k]
  }

  /** Distinct originals have distinct replacements. */
  ghost predicate Injective(table: map<string, string>)
  {
    forall x, y :: x in table && y in table && x != y ==> table[x] != table[y]
  }

  /** Every replacement is a UID drawn before the next draw, numbered next. */
  ghost predicate DrawnBelow(table: map<string, string>, root: string, next: nat)
  {
    forall x :: x in table ==> exists j: nat :: j < next && table[x] == UidString(root, j)
  }

  datatype Lookup = Lookup(uid: string, table: map<string, string>, nextUid: nat)

  /** UIDMap.getUID: the recorded replacement, or a UID drawn now and recorded. */
  function GetOrCreate(table: map<string, string>, original: string, root: string, nextUid: nat): (r: Lookup)
    ensures original in r.table && r.table[original] == r.uid
    ensures Extends(table, r.table) && r.table.Keys == table.Keys + {original}
    ensures r.nextUid == nextUid + (if original in table then 0 else 1)
  {
    if original in table then Lookup(table[original], table, nextUid)
    else
      var uid := UidString(root, nextUid);
      Lookup(uid, table[original := uid], nextUid + 1)
  }

  /** A second lookup of the same original returns the same UID and changes nothing. */
  lemma GetOrCreateIdempotent(table: map<string, string>, original: string, root: string, nextUid: nat)
    ensures var r := GetOrCreate(table, original, root, nextUid);
            GetOrCreate(r.table, original, root, r.nextUid) == r
  {
  }

  /** Drawing fresh UIDs keeps the table injective: two originals never share a
      replacement. */
  lemma GetOrCreateKeepsInjective(table: map<string, string>, original: string, root: string, nextUid: nat)
    requires Injective(table) && DrawnBelow(table, root, nextUid)
    ensures var r := GetOrCreate(table, original, root, nextUid);
            Injective(r.table) && DrawnBelow(r.table, root, r.nextUid)
  {
    if original !in table {
      var uid := UidString(root, nextUid);
      forall x | x in table
        ensures table[x] != uid
      {
        var j: nat :| j < nextUid && table[x] == UidString(root, j);
        if table[x] == uid {
          UidStringInjective(root, j, nextUid);
        }
      }
    }
  }

  class UidMap {
    var table: map<string, string>

    constructor ()
      ensures table == map[]
    {
      table := map[];
    }

    method GetUid(original: string, ids: IdSource) returns (uid: string)
      modifies this, ids
      ensures Lookup(uid, table, ids.state.uids) == GetOrCreate(old(table), original, ids.root, old(ids.state.uids))
      ensures ids.state == old(ids.state).(uids := ids.state.uids)
    {
      if original in table {
        uid := table[original];
      } else {
        uid := ids.NextUid();
        table := table[original := uid];
      }
    }
  }
}
