/**
 * Storage topology discovery (`GetStorageInfos`): the list of LUN
 * descriptions the dump workflows work from. The programmer is asked for
 * the aggregate description and then for each LUN; a programmer that
 * refuses the aggregate query is probed instead for partition tables on
 * the first ten LUNs, and the list is rebuilt from what was found.
 *
 * The two device operations are oracles: `InfoQuery` answers
 * `GetStorageInfo` for a LUN (LUN 0 for the aggregate query, whose
 * physical partition number defaults to 0), and `GptProbe` answers
 * `ReadGPT` for a LUN at a sector size. Each answers the same question the
 * same way every time it is asked.
 */
module StorageTopology {
  import opened Wrappers
  import opened Ints
  import opened StorageInfoJson
  import opened Gpt

  type InfoQuery = int -> Result<Option<StorageInfo>>
  type GptProbe = (int, int) -> Result<Option<GptTable>>

  const LunReadError: string := "Error in reading LUN for storage info!"

  // ------------------------------------------------------------------
  // The primary path

  /** What a per-LUN query that did not give a description throws. */
  function QueryFailure(q: Result<Option<StorageInfo>>): Result<Option<seq<StorageInfo>>>
  {
    if q.Err? then Err(q.error) else Err(Failure(LunReadError))
  }

  /** The per-LUN queries for LUNs `1..to-1` all give a description. */
  predicate AnsweredBelow(info: InfoQuery, to: int)
  {
    forall i :: 1 <= i < to ==> info(i).Ok? && info(i).value.Some?
  }

  /**
   * The aggregate query, then one query per further LUN up to the
   * aggregate's `num_physical`, in order. `Ok(None)` when the aggregate
   * query gives nothing; a per-LUN query that gives nothing throws.
   */
  method PrimaryTopology(info: InfoQuery) returns (r: Result<Option<seq<StorageInfo>>>)
    ensures info(0).Err? ==> r == Err(info(0).error)
    ensures info(0) == Ok(None) ==> r == Ok(None)
    ensures info(0).Ok? && info(0).value.Some? ==>
      var main := info(0).value.value;
      && (r.Ok? <==> AnsweredBelow(info, main.numPhysical))
      && (r.Ok? ==>
            && r.value.Some? && |r.value.value| == (if main.numPhysical < 1 then 1 else main.numPhysical)
            && r.value.value[0] == main
            && forall i :: 1 <= i < |r.value.value| ==> info(i) == Ok(Some(r.value.value[i])))
      && (r.Err? ==>
            exists i :: 1 <= i < main.numPhysical && AnsweredBelow(info, i)
                        && !(info(i).Ok? && info(i).value.Some?) && r == QueryFailure(info(i)))
  {
    var mainInfo := info(0);
    if mainInfo.Err? {
      return Err(mainInfo.error);
    }
    if mainInfo.value.None? {
      return Ok(None);
    }
    var infos := [mainInfo.value.value];
    var totalLuns := mainInfo.value.value.numPhysical;
    var i := 1;
    while i < totalLuns
      invariant 1 <= i && (i <= totalLuns || i == 1)
      invariant |infos| == i && infos[0] == mainInfo.value.value
      invariant forall k :: 1 <= k < i ==> info(k) == Ok(Some(infos[k]))
      invariant AnsweredBelow(info, i)
    {
      var luInfo := info(i);
      if luInfo.Err? || luInfo.value.None? {
        r := QueryFailure(luInfo);
        return;
      }
      infos := infos + [luInfo.value.value];
      i := i + 1;
    }
    r := Ok(Some(infos));
  }

  // ------------------------------------------------------------------
  // The fallback: probing for partition tables

  /** The number of LUNs the fallback probes. */
  const ProbedLuns: nat := 10

  /** One LUN's probe: the table found, the sector size afterwards, the sizes tried in order. */
  datatype Probed = Probed(gpt: Option<GptTable>, sectorSize: int, attempts: seq<int>)

  /** The guarded second try at 512 bytes after an exception, with no size confirmed yet. */
  function Retry512(probe: GptProbe, lun: int, tried: seq<int>): (p: Probed)
  {
    match probe(lun, 512)
    case Ok(Some(t)) => Probed(Some(t), 512, tried + [512])
    case _ => Probed(None, 0, tried + [512])
  }

  /**
   * One iteration of the probe loop. With a confirmed size only that size
   * is tried, and an exception is not retried. Before confirmation 4096
   * is tried first and 512 after it; a table confirms the size it was
   * read with; an exception while unconfirmed gives 512 one more try.
   */
  function ProbeLun(probe: GptProbe, lun: int, sectorSize: int): (p: Probed)
    ensures sectorSize in {0, 512, 4096} ==> p.sectorSize in {0, 512, 4096}
    ensures sectorSize != 0 ==> p.sectorSize == sectorSize && p.attempts == [sectorSize]
    ensures sectorSize == 0 ==> (p.sectorSize != 0 <==> p.gpt.Some?)
    ensures sectorSize == 0 ==> 1 <= |p.attempts| <= 3 && p.attempts[0] == 4096
    ensures p.gpt.Some? ==> |p.attempts| > 0 && probe(lun, p.attempts[|p.attempts| - 1]) == Ok(p.gpt)
    ensures p.gpt.Some? && sectorSize == 0 ==> p.sectorSize == p.attempts[|p.attempts| - 1]
  {
    if sectorSize != 0 then
      Probed(match probe(lun, sectorSize) case Ok(t) => t case Err(_) => None, sectorSize, [sectorSize])
    else
      match probe(lun, 4096)
      case Ok(Some(t)) => Probed(Some(t), 4096, [4096])
      case Ok(None) =>
        (match probe(lun, 512)
         case Ok(Some(t)) => Probed(Some(t), 512, [4096, 512])
         case Ok(None) => Probed(None, 0, [4096, 512])
         case Err(_) => Retry512(probe, lun, [4096, 512]))
      case Err(_) => Retry512(probe, lun, [4096])
  }

  /**
   * `sizes[i]` is the sector size before LUN `i` is probed and `found[i]`
   * what its probe found: the probe loop's record.
   */
  predicate Chain(probe: GptProbe, sizes: seq<int>, found: seq<Option<GptTable>>)
  {
    && |sizes| == |found| + 1 && sizes[0] == 0
    && forall i :: 0 <= i < |found| ==>
         ProbeLun(probe, i, sizes[i]).gpt == found[i] && ProbeLun(probe, i, sizes[i]).sectorSize == sizes[i + 1]
  }

  /**
   * The sector size is always 0, 512 or 4096; once nonzero it never
   * changes; and it is nonzero exactly when some earlier probe found a
   * table.
   */
  lemma {:induction false} SectorSizeSticky(probe: GptProbe, sizes: seq<int>, found: seq<Option<GptTable>>)
    requires Chain(probe, sizes, found)
    ensures forall i :: 0 <= i < |sizes| ==> sizes[i] in {0, 512, 4096}
    ensures forall i, j :: 0 <= i <= j < |sizes| && sizes[i] != 0 ==> sizes[j] == sizes[i]
    ensures forall i :: 0 <= i < |sizes| ==> (sizes[i] != 0 <==> exists k :: 0 <= k < i && found[k].Some?)
  {
    if found != [] {
      var n := |found| - 1;
      var s, f := sizes[..n + 1], found[..n];
      assert Chain(probe, s, f) by {
        forall i | 0 <= i < |f|
          ensures ProbeLun(probe, i, s[i]).gpt == f[i] && ProbeLun(probe, i, s[i]).sectorSize == s[i + 1]
        {
          assert s[i] == sizes[i] && s[i + 1] == sizes[i + 1] && f[i] == found[i];
        }
      }
      SectorSizeSticky(probe, s, f);
      assert forall i :: 0 <= i <= n ==> sizes[i] == s[i];
      var p := ProbeLun(probe, n, sizes[n]);
      assert sizes[n + 1] == p.sectorSize && found[n] == p.gpt;
      forall i | 0 <= i < |sizes|
        ensures sizes[i] != 0 <==> exists k :: 0 <= k < i && found[k].Some?
      {
        if i <= n {
          assert sizes[i] == s[i];
          assert (exists k :: 0 <= k < i && f[k].Some?) <==> (exists k :: 0 <= k < i && found[k].Some?) by {
            assert forall k :: 0 <= k < i ==> f[k] == found[k];
          }
        }
      }
    }
  }

  /** The entry for a LUN whose table was found: its index parked in `num_physical` for now. */
  function Discovered(gpt: GptTable, lun: int32): (e: StorageInfo)
    ensures e.blockSize == gpt.sectorSize && e.numPhysical == lun && e.prodName.None?
    ensures gpt.lastUsableLba + 1 < TWO_31 ==> e.totalBlocks == gpt.lastUsableLba + 1
  {
    StorageInfo(gpt.sectorSize, ToInt(ToULong(gpt.lastUsableLba + 1)), lun, None)
  }

  /** The provisional list: one entry per LUN whose table was found, in LUN order. */
  function Discoveries(found: seq<Option<GptTable>>): seq<StorageInfo>
    requires |found| <= TWO_31
  {
    if found == [] then []
    else
      var n := |found| - 1;
      Discoveries(found[..n]) + match found[n] case Some(t) => [Discovered(t, n)] case None => []
  }

  /** An entry of the provisional list is the one built from a found LUN's table. */
  lemma {:induction false} DiscoveriesEntry(found: seq<Option<GptTable>>, j: int)
    requires |found| <= TWO_31 && 0 <= j < |Discoveries(found)|
    ensures var e := Discoveries(found)[j];
      && 0 <= e.numPhysical < |found| && found[e.numPhysical].Some?
      && e == Discovered(found[e.numPhysical].value, e.numPhysical)
  {
    var n := |found| - 1;
    var f := found[..n];
    var d, d0 := Discoveries(found), Discoveries(f);
    assert d == d0 + match found[n] case Some(t) => [Discovered(t, n)] case None => [];
    if j < |d0| {
      DiscoveriesEntry(f, j);
      var l := d0[j].numPhysical;
      assert d[j] == d0[j] && f[l] == found[l];
    } else {
      assert found[n].Some?;
      assert d[j] == Discovered(found[n].value, n);
    }
  }

  /** Every entry of the provisional list is the one built from a found LUN's table. */
  lemma DiscoveriesEntries(found: seq<Option<GptTable>>)
    requires |found| <= TWO_31
    ensures var d := Discoveries(found);
      forall j :: 0 <= j < |d| ==>
        && 0 <= d[j].numPhysical < |found| && found[d[j].numPhysical].Some?
        && d[j] == Discovered(found[d[j].numPhysical].value, d[j].numPhysical)
  {
    forall j | 0 <= j < |Discoveries(found)| {
      DiscoveriesEntry(found, j);
    }
  }

  /** Every LUN whose table was found has an entry on the provisional list. */
  lemma {:induction false} DiscoveriesComplete(found: seq<Option<GptTable>>, i: int)
    requires |found| <= TWO_31 && 0 <= i < |found| && found[i].Some?
    ensures exists j :: 0 <= j < |Discoveries(found)| && Discoveries(found)[j].numPhysical == i
  {
    var n := |found| - 1;
    var d, d0 := Discoveries(found), Discoveries(found[..n]);
    assert d == d0 + match found[n] case Some(t) => [Discovered(t, n)] case None => [];
    if i == n {
      assert d[|d0|].numPhysical == n;
    } else {
      assert found[..n][i] == found[i];
      DiscoveriesComplete(found[..n], i);
      var j :| 0 <= j < |d0| && d0[j].numPhysical == i;
      assert d[j] == d0[j];
    }
  }

  /** The provisional list is in increasing LUN order, so no LUN appears twice. */
  lemma {:induction false} DiscoveriesOrdered(found: seq<Option<GptTable>>, j: int, k: int)
    requires |found| <= TWO_31 && 0 <= j < k < |Discoveries(found)|
    ensures Discoveries(found)[j].numPhysical < Discoveries(found)[k].numPhysical
  {
    var n := |found| - 1;
    var f := found[..n];
    var d, d0 := Discoveries(found), Discoveries(f);
    assert d == d0 + match found[n] case Some(t) => [Discovered(t, n)] case None => [];
    DiscoveriesEntry(f, j);
    assert d[j] == d0[j];
    if k < |d0| {
      DiscoveriesOrdered(f, j, k);
      assert d[k] == d0[k];
    } else {
      assert d[k].numPhysical == n;
    }
  }

  /** `FirstOrDefault`: the first entry whose `num_physical` is `lun`. */
  function FirstWithLun(temp: seq<StorageInfo>, lun: int): (j: Option<nat>)
    ensures j.Some? ==> j.value < |temp| && temp[j.value].numPhysical == lun
                        && forall k :: 0 <= k < j.value ==> temp[k].numPhysical != lun
    ensures j.None? ==> forall k :: 0 <= k < |temp| ==> temp[k].numPhysical != lun
  {
    if temp == [] then None
    else if temp[0].numPhysical == lun then Some(0)
    else
      match FirstWithLun(temp[1..], lun)
      case None => None
      case Some(j) => Some(j + 1)
  }

  /** `MaxBy` on `num_physical`: the largest of them. */
  function MaxLun(temp: seq<StorageInfo>): (m: int)
    requires temp != []
    ensures exists k :: 0 <= k < |temp| && temp[k].numPhysical == m
    ensures forall k :: 0 <= k < |temp| ==> temp[k].numPhysical <= m
  {
    if |temp| == 1 then temp[0].numPhysical
    else
      var m := MaxLun(temp[1..]);
      assert forall k :: 1 <= k < |temp| ==> temp[k] == temp[1..][k - 1];
      if temp[0].numPhysical > m then temp[0].numPhysical else m
  }

  /** The stand-in for a LUN that could not be read: one block of the confirmed size. */
  function Placeholder(sectorSize: int, count: int32): StorageInfo
  {
    StorageInfo(ToInt(sectorSize), 1, count, None)
  }

  /**
   * The reconciliation loop: for each index up to the largest LUN found,
   * the entry found for it or a placeholder, every one of them carrying
   * the LUN count in `num_physical`.
   */
  method Reconcile(temp: seq<StorageInfo>, sectorSize: int) returns (infos: seq<StorageInfo>)
    ensures temp == [] ==> infos == []
    ensures temp != [] ==>
      var count := ToInt(MaxLun(temp) + 1);
      && |infos| == (if count < 0 then 0 else count)
      && forall i :: 0 <= i < |infos| ==>
           infos[i] == match FirstWithLun(temp, i)
                       case Some(j) => temp[j].(numPhysical := count)
                       case None => Placeholder(sectorSize, count)
  {
    infos := [];
    if |temp| > 0 {
      var maxValid := MaxLun(temp);
      var count := ToInt(maxValid + 1);
      var i := 0;
      while i < count
        invariant 0 <= i && (i <= count || i == 0) && |infos| == i
        invariant forall k :: 0 <= k < i ==>
          infos[k] == match FirstWithLun(temp, k)
                      case Some(j) => temp[j].(numPhysical := count)
                      case None => Placeholder(sectorSize, count)
      {
        var storageInfo := FirstWithLun(temp, i);
        if storageInfo.Some? {
          infos := infos + [temp[storageInfo.value].(numPhysical := count)];
        } else {
          infos := infos + [Placeholder(sectorSize, count)];
        }
        i := i + 1;
      }
    }
  }

  /** The probe loop over LUNs 0..9, collecting an entry for each table found. */
  method ProbeLuns(probe: GptProbe)
    returns (temp: seq<StorageInfo>, sectorSize: int, ghost sizes: seq<int>, ghost found: seq<Option<GptTable>>)
    ensures |found| == ProbedLuns && Chain(probe, sizes, found)
    ensures sectorSize == sizes[ProbedLuns] && temp == Discoveries(found)
  {
    temp := [];
    sectorSize := 0;
    sizes := [0];
    found := [];
    for i := 0 to ProbedLuns
      invariant |found| == i && Chain(probe, sizes, found)
      invariant sectorSize == sizes[i] && temp == Discoveries(found)
    {
      var p := ProbeLun(probe, i, sectorSize);
      assert (found + [p.gpt])[..i] == found;
      if p.gpt.Some? {
        temp := temp + [Discovered(p.gpt.value, i)];
      }
      sectorSize := p.sectorSize;
      sizes := sizes + [sectorSize];
      found := found + [p.gpt];
    }
  }

  /** The largest LUN index whose table was found. */
  function LastFound(found: seq<Option<GptTable>>): (m: nat)
    requires exists i :: 0 <= i < |found| && found[i].Some?
    ensures m < |found| && found[m].Some? && forall i :: m < i < |found| ==> found[i].None?
  {
    var n := |found| - 1;
    if found[n].Some? then n
    else
      assert forall i :: 0 <= i < n ==> found[..n][i] == found[i];
      LastFound(found[..n])
  }

  /**
   * The fallback's list, stated on what the probes found: empty when no
   * table was found; otherwise one entry per LUN up to the last one found,
   * the discovered entry where a table was found and a placeholder of the
   * final sector size elsewhere, each with `num_physical` set to the
   * count.
   */
  predicate Reconciled(found: seq<Option<GptTable>>, sectorSize: int, infos: seq<StorageInfo>)
    requires |found| < TWO_31
  {
    && ((forall i :: 0 <= i < |found| ==> found[i].None?) ==> infos == [])
    && ((exists i :: 0 <= i < |found| && found[i].Some?) ==>
          var m := LastFound(found);
          && |infos| == m + 1
          && forall i :: 0 <= i < |infos| ==>
               infos[i] == if found[i].Some? then Discovered(found[i].value, i).(numPhysical := m + 1)
                           else Placeholder(sectorSize, m + 1))
  }

  /** The largest LUN on the provisional list is the last LUN whose table was found. */
  lemma MaxLunIsLastFound(found: seq<Option<GptTable>>)
    requires |found| <= TWO_31 && exists i :: 0 <= i < |found| && found[i].Some?
    ensures Discoveries(found) != [] && MaxLun(Discoveries(found)) == LastFound(found)
  {
    DiscoveriesEntries(found);
    DiscoveriesComplete(found, LastFound(found));
    var temp, m := Discoveries(found), LastFound(found);
    var j0 :| 0 <= j0 < |temp| && temp[j0].numPhysical == m;
    var k :| 0 <= k < |temp| && temp[k].numPhysical == MaxLun(temp);
    assert found[temp[k].numPhysical].Some?;
  }

  /** Looking a LUN up on the provisional list finds its entry exactly when its table was found. */
  lemma LookupDiscovered(found: seq<Option<GptTable>>, i: int)
    requires |found| <= TWO_31 && 0 <= i < |found|
    ensures var temp := Discoveries(found);
      match FirstWithLun(temp, i)
      case Some(j) => found[i].Some? && temp[j] == Discovered(found[i].value, i)
      case None => found[i].None?
  {
    DiscoveriesEntries(found);
    if FirstWithLun(Discoveries(found), i).None? && found[i].Some? {
      DiscoveriesComplete(found, i);
    }
  }

  /** Reconciling the provisional list of a probe run gives the list `Reconciled` describes. */
  lemma ReconcileDiscoveries(found: seq<Option<GptTable>>, sectorSize: int, temp: seq<StorageInfo>, infos: seq<StorageInfo>)
    requires |found| < TWO_31 - 1 && temp == Discoveries(found)
    requires temp == [] ==> infos == []
    requires temp != [] ==>
      var count := ToInt(MaxLun(temp) + 1);
      && |infos| == (if count < 0 then 0 else count)
      && forall i :: 0 <= i < |infos| ==>
           infos[i] == match FirstWithLun(temp, i)
                       case Some(j) => temp[j].(numPhysical := count)
                       case None => Placeholder(sectorSize, count)
    ensures Reconciled(found, sectorSize, infos)
  {
    if exists i :: 0 <= i < |found| && found[i].Some? {
      var m := LastFound(found);
      MaxLunIsLastFound(found);
      assert ToInt(MaxLun(temp) + 1) == m + 1;
      forall i | 0 <= i < |infos|
        ensures infos[i] == if found[i].Some? then Discovered(found[i].value, i).(numPhysical := m + 1)
                            else Placeholder(sectorSize, m + 1)
      {
        LookupDiscovered(found, i);
      }
    } else {
      DiscoveriesEntries(found);
    }
  }

  /**
   * `GetStorageInfos`. With an aggregate description, the primary path's
   * list (or its exception); without one, the fallback's list, which
   * never throws. `sizes` and `found` record the probe loop.
   */
  method GetStorageInfos(info: InfoQuery, probe: GptProbe)
    returns (r: Result<seq<StorageInfo>>, ghost sizes: seq<int>, ghost found: seq<Option<GptTable>>)
    ensures info(0).Err? ==> r == Err(info(0).error)
    ensures info(0).Ok? && info(0).value.Some? ==>
      var main := info(0).value.value;
      && (r.Ok? <==> AnsweredBelow(info, main.numPhysical))
      && (r.Ok? ==>
            && |r.value| == (if main.numPhysical < 1 then 1 else main.numPhysical) && r.value[0] == main
            && forall i :: 1 <= i < |r.value| ==> info(i) == Ok(Some(r.value[i])))
      && (r.Err? ==> exists i :: 1 <= i < main.numPhysical && AnsweredBelow(info, i)
                                && !(info(i).Ok? && info(i).value.Some?) && r.error == QueryFailure(info(i)).error)
    ensures info(0) == Ok(None) ==>
      && |found| == ProbedLuns && Chain(probe, sizes, found)
      && r.Ok? && Reconciled(found, sizes[ProbedLuns], r.value)
  {
    sizes, found := [0], [];
    var primary := PrimaryTopology(info);
    if primary.Err? {
      return Err(primary.error), sizes, found;
    }
    if primary.value.Some? {
      return Ok(primary.value.value), sizes, found;
    }
    var temp, sectorSize;
    temp, sectorSize, sizes, found := ProbeLuns(probe);
    var infos := Reconcile(temp, sectorSize);
    ReconcileDiscoveries(found, sectorSize, temp, infos);
    r := Ok(infos);
  }
}
