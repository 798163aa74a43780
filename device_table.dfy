/**
 * The device table of common/common.c and the scan that classifies the
 * connected device by its CPID (chip id) and BDID (board id).
 *
 * The table is a sequence of entries that the C loop walks until it meets
 * an entry whose CPID is 0xffff. For every CPID except 0x8010 the first
 * entry with the device's CPID decides. For CPID 0x8010 a second scan runs
 * forward from that entry until an entry whose BDID is 0xff, and on a BDID
 * match the OUTER entry's type is taken; the outer scan then goes on, so a
 * later 0x8010 entry can overwrite the result.
 */
module DeviceTable {

  type U8 = x: int | 0 <= x < 0x100
  type U16 = x: int | 0 <= x < 0x1_0000

  /** The values an `enterdfuType` takes (the constants of common/common.h). */
  datatype DfuType = DfuLegacy | DfuIPhone7 | DfuIPhoneX | DfuUnknownType

  /** One `checkm8_device_list` record: a 16-bit CPID, an 8-bit BDID and a type. */
  datatype Entry = Entry(cpid: U16, bdid: U8, enterDfuType: DfuType)

  /** The CPID that ends the outer scan. */
  const SentinelCpid: U16 := 0xffff
  /** The BDID that ends the inner scan. */
  const EndBdid: U8 := 0xff
  /** The only CPID whose entries are told apart by BDID. */
  const MixedCpid: U16 := 0x8010

  /** The table shipped with the tool: the A11 (iPhone 8/X) entry and the sentinel. */
  const Devlists: seq<Entry> := [
    Entry(0x8015, 0xff, DfuIPhoneX),
    Entry(0xffff, 0xff, DfuUnknownType)
  ]

  /** Index of the first sentinel entry, or |t| when there is none. */
  function SentinelIndex(t: seq<Entry>): (k: nat)
    ensures k <= |t|
    ensures k < |t| ==> t[k].cpid == SentinelCpid
    ensures forall m :: 0 <= m < k ==> t[m].cpid != SentinelCpid
  {
    if t == [] then 0
    else if t[0].cpid == SentinelCpid then 0
    else 1 + SentinelIndex(t[1..])
  }

  /**
   * The table shape under which every read of the C scan stays inside the
   * array: there is a sentinel, and the first one also stops the inner scan.
   */
  ghost predicate WellFormed(t: seq<Entry>)
  {
    SentinelIndex(t) < |t| && t[SentinelIndex(t)].bdid == EndBdid
  }

  /** First index at or after `j` whose BDID is 0xff, or |t| when there is none. */
  function BdidStop(t: seq<Entry>, j: nat): (k: nat)
    requires j <= |t|
    ensures j <= k <= |t|
    ensures k < |t| ==> t[k].bdid == EndBdid
    ensures forall m :: j <= m < k ==> t[m].bdid != EndBdid
    decreases |t| - j
  {
    if j == |t| || t[j].bdid == EndBdid then j else BdidStop(t, j + 1)
  }

  /**
   * The inner loop of the scan, `for (j = i; devlists[j].bdid != 0xff; j++)`:
   * whether it meets the device's BDID before an entry whose BDID is 0xff.
   * Running off the end (undefined in C) reads as no match.
   */
  function BdidHit(t: seq<Entry>, j: nat, bdid: nat): bool
    decreases |t| - j
  {
    if j >= |t| || t[j].bdid == EndBdid then false
    else if t[j].bdid == bdid then true
    else BdidHit(t, j + 1, bdid)
  }

  /**
   * The outer loop from index `i` on, with `kind` the value of
   * `enterdfuType` on entry to that iteration.
   */
  function ScanFrom(t: seq<Entry>, i: nat, cpid: nat, bdid: nat, kind: DfuType): DfuType
    decreases |t| - i
  {
    if i >= |t| || t[i].cpid == SentinelCpid then kind
    else if cpid == t[i].cpid then
      if cpid == MixedCpid then
        ScanFrom(t, i + 1, cpid, bdid, if BdidHit(t, i, bdid) then t[i].enterDfuType else kind)
      else t[i].enterDfuType
    else ScanFrom(t, i + 1, cpid, bdid, kind)
  }

  /** The type the scan assigns to a device with this CPID and BDID. */
  function Classify(t: seq<Entry>, cpid: nat, bdid: nat): DfuType
  {
    ScanFrom(t, 0, cpid, bdid, DfuUnknownType)
  }

  /**
   * The classification loop as the C code runs it: nested loops that
   * update `enterdfuType` and leave by `break`.
   */
  method ClassifyScan(t: seq<Entry>, cpid: nat, bdid: nat) returns (kind: DfuType)
    requires WellFormed(t)
    ensures kind == Classify(t, cpid, bdid)
  {
    var s := SentinelIndex(t);
    kind := DfuUnknownType;
    var i := 0;
    while t[i].cpid != SentinelCpid
      invariant 0 <= i <= s
      invariant ScanFrom(t, i, cpid, bdid, kind) == Classify(t, cpid, bdid)
      decreases s - i
    {
      if cpid == t[i].cpid {
        if cpid == MixedCpid {
          ghost var before := kind;
          var j := i;
          while t[j].bdid != EndBdid
            invariant i <= j <= s
            invariant BdidHit(t, j, bdid) == BdidHit(t, i, bdid)
            invariant kind == before
            decreases s - j
          {
            if bdid == t[j].bdid {
              kind := t[i].enterDfuType;
              break;
            }
            j := j + 1;
          }
          assert kind == if BdidHit(t, i, bdid) then t[i].enterDfuType else before;
        } else {
          kind := t[i].enterDfuType;
          break;
        }
      }
      i := i + 1;
    }
  }

  /** `k` is the first entry before the sentinel with this CPID. */
  ghost predicate IsFirstMatch(t: seq<Entry>, cpid: nat, k: nat)
  {
    k < SentinelIndex(t) && t[k].cpid == cpid
    && forall m :: 0 <= m < k ==> t[m].cpid != cpid
  }

  /** The outer entry `i` is a 0x8010 entry whose inner scan meets the BDID. */
  ghost predicate MixedHit(t: seq<Entry>, i: nat, bdid: nat)
  {
    i < SentinelIndex(t) && t[i].cpid == MixedCpid && BdidHit(t, i, bdid)
  }

  lemma {:induction false} ScanFromFirstMatch(t: seq<Entry>, i: nat, cpid: nat, bdid: nat, kind: DfuType, k: nat)
    requires cpid != MixedCpid && IsFirstMatch(t, cpid, k) && i <= k
    ensures ScanFrom(t, i, cpid, bdid, kind) == t[k].enterDfuType
    decreases k - i
  {
    if i < k {
      ScanFromFirstMatch(t, i + 1, cpid, bdid, kind, k);
    }
  }

  /** For a CPID other than 0x8010 the first matching entry before the sentinel decides. */
  lemma ClassifyFirstMatch(t: seq<Entry>, cpid: nat, bdid: nat, k: nat)
    requires cpid != MixedCpid && IsFirstMatch(t, cpid, k)
    ensures Classify(t, cpid, bdid) == t[k].enterDfuType
  {
    ScanFromFirstMatch(t, 0, cpid, bdid, DfuUnknownType, k);
  }

  lemma {:induction false} ScanFromNoMatch(t: seq<Entry>, i: nat, cpid: nat, bdid: nat, kind: DfuType)
    requires i <= SentinelIndex(t)
    requires forall m :: i <= m < SentinelIndex(t) ==> t[m].cpid != cpid
    ensures ScanFrom(t, i, cpid, bdid, kind) == kind
    decreases |t| - i
  {
    if i < |t| && t[i].cpid != SentinelCpid {
      ScanFromNoMatch(t, i + 1, cpid, bdid, kind);
    }
  }

  /** No entry before the sentinel has the CPID: the result stays DFU_UNKOWN_TYPE. */
  lemma ClassifyNoMatch(t: seq<Entry>, cpid: nat, bdid: nat)
    requires forall m :: 0 <= m < SentinelIndex(t) ==> t[m].cpid != cpid
    ensures Classify(t, cpid, bdid) == DfuUnknownType
  {
    ScanFromNoMatch(t, 0, cpid, bdid, DfuUnknownType);
  }

  lemma {:induction false} ScanFromIgnoresBdid(t: seq<Entry>, i: nat, cpid: nat, b1: nat, b2: nat, kind: DfuType)
    requires cpid != MixedCpid
    ensures ScanFrom(t, i, cpid, b1, kind) == ScanFrom(t, i, cpid, b2, kind)
    decreases |t| - i
  {
    if i < |t| && t[i].cpid != SentinelCpid && cpid != t[i].cpid {
      ScanFromIgnoresBdid(t, i + 1, cpid, b1, b2, kind);
    }
  }

  /** For a CPID other than 0x8010 the BDID is never consulted. */
  lemma ClassifyIgnoresBdid(t: seq<Entry>, cpid: nat, b1: nat, b2: nat)
    requires cpid != MixedCpid
    ensures Classify(t, cpid, b1) == Classify(t, cpid, b2)
  {
    ScanFromIgnoresBdid(t, 0, cpid, b1, b2, DfuUnknownType);
  }

  /** The inner scan meets the BDID exactly when an entry before its stop carries it. */
  lemma {:induction false} BdidHitIff(t: seq<Entry>, j: nat, bdid: nat)
    requires j <= |t|
    ensures BdidHit(t, j, bdid) <==> exists m :: j <= m < BdidStop(t, j) && t[m].bdid == bdid
    decreases |t| - j
  {
    if j < |t| && t[j].bdid != EndBdid {
      BdidHitIff(t, j + 1, bdid);
    }
  }

  /** A device whose BDID is 0xff never matches in the inner scan. */
  lemma {:induction false} BdidHitNeverEnd(t: seq<Entry>, j: nat)
    ensures !BdidHit(t, j, EndBdid)
    decreases |t| - j
  {
    if j < |t| && t[j].bdid != EndBdid {
      BdidHitNeverEnd(t, j + 1);
    }
  }

  lemma {:induction false} ScanFromMixedNone(t: seq<Entry>, i: nat, bdid: nat, kind: DfuType)
    requires i <= SentinelIndex(t)
    requires forall m :: i <= m ==> !MixedHit(t, m, bdid)
    ensures ScanFrom(t, i, MixedCpid, bdid, kind) == kind
    decreases |t| - i
  {
    if i < |t| && t[i].cpid != SentinelCpid {
      assert !MixedHit(t, i, bdid);
      ScanFromMixedNone(t, i + 1, bdid, kind);
    }
  }

  lemma {:induction false} ScanFromMixedLast(t: seq<Entry>, i: nat, bdid: nat, kind: DfuType, k: nat)
    requires i <= k && MixedHit(t, k, bdid)
    requires forall m :: k < m ==> !MixedHit(t, m, bdid)
    ensures ScanFrom(t, i, MixedCpid, bdid, kind) == t[k].enterDfuType
    decreases k - i
  {
    if i < k {
      var next := if MixedCpid == t[i].cpid && BdidHit(t, i, bdid) then t[i].enterDfuType else kind;
      ScanFromMixedLast(t, i + 1, bdid, next, k);
    } else {
      ScanFromMixedNone(t, k + 1, bdid, t[k].enterDfuType);
    }
  }

  /**
   * For CPID 0x8010 the LAST outer entry whose inner scan meets the BDID
   * decides, and the type taken is that outer entry's own.
   */
  lemma ClassifyMixedLast(t: seq<Entry>, bdid: nat, k: nat)
    requires MixedHit(t, k, bdid)
    requires forall m :: k < m ==> !MixedHit(t, m, bdid)
    ensures Classify(t, MixedCpid, bdid) == t[k].enterDfuType
  {
    ScanFromMixedLast(t, 0, bdid, DfuUnknownType, k);
  }

  /** For CPID 0x8010 with no inner-scan match the result stays DFU_UNKOWN_TYPE. */
  lemma ClassifyMixedNone(t: seq<Entry>, bdid: nat)
    requires forall m :: 0 <= m ==> !MixedHit(t, m, bdid)
    ensures Classify(t, MixedCpid, bdid) == DfuUnknownType
  {
    ScanFromMixedNone(t, 0, bdid, DfuUnknownType);
  }

  lemma {:induction false} PrefixSentinel(t: seq<Entry>, u: seq<Entry>)
    requires SentinelIndex(t) < |t|
    ensures SentinelIndex(t[..SentinelIndex(t) + 1] + u) == SentinelIndex(t)
  {
    var s := SentinelIndex(t);
    var t' := t[..s + 1] + u;
    if s > 0 {
      assert t'[1..] == t[1..][..SentinelIndex(t[1..]) + 1] + u;
      PrefixSentinel(t[1..], u);
    }
  }

  lemma {:induction false} BdidHitTail(t: seq<Entry>, u: seq<Entry>, j: nat, bdid: nat)
    requires WellFormed(t) && j <= SentinelIndex(t)
    ensures BdidHit(t[..SentinelIndex(t) + 1] + u, j, bdid) == BdidHit(t, j, bdid)
    decreases SentinelIndex(t) - j
  {
    var t' := t[..SentinelIndex(t) + 1] + u;
    assert t'[j] == t[j];
    if j < SentinelIndex(t) && t[j].bdid != EndBdid && t[j].bdid != bdid {
      BdidHitTail(t, u, j + 1, bdid);
    }
  }

  lemma {:induction false} ScanFromTail(t: seq<Entry>, u: seq<Entry>, i: nat, cpid: nat, bdid: nat, kind: DfuType)
    requires WellFormed(t) && i <= SentinelIndex(t)
    ensures ScanFrom(t[..SentinelIndex(t) + 1] + u, i, cpid, bdid, kind) == ScanFrom(t, i, cpid, bdid, kind)
    decreases SentinelIndex(t) - i
  {
    var t' := t[..SentinelIndex(t) + 1] + u;
    assert t'[i] == t[i];
    if i < SentinelIndex(t) {
      BdidHitTail(t, u, i, bdid);
      var next := if cpid == t[i].cpid && BdidHit(t, i, bdid) then t[i].enterDfuType else kind;
      ScanFromTail(t, u, i + 1, cpid, bdid, next);
      ScanFromTail(t, u, i + 1, cpid, bdid, kind);
    }
  }

  /**
   * Entries after the first sentinel never affect the result, when that
   * sentinel's BDID is 0xff (otherwise the inner scan could read past it).
   */
  lemma ClassifyIgnoresTail(t: seq<Entry>, u: seq<Entry>, cpid: nat, bdid: nat)
    requires WellFormed(t)
    ensures Classify(t[..SentinelIndex(t) + 1] + u, cpid, bdid) == Classify(t, cpid, bdid)
  {
    ScanFromTail(t, u, 0, cpid, bdid, DfuUnknownType);
  }

  /**
   * The inner scan does not stop where the CPID changes, and a hit takes
   * the outer entry's type: a BDID that belongs to a 0x8011 entry still
   * classifies a 0x8010 device, as the 0x8010 entry's type.
   */
  lemma InnerScanCrossesCpid()
    ensures Classify([Entry(0x8010, 5, DfuLegacy), Entry(0x8011, 7, DfuIPhone7),
                      Entry(0xffff, 0xff, DfuUnknownType)], MixedCpid, 7) == DfuLegacy
  {
  }

  /** The shipped table has the shape the scan relies on. */
  lemma DevlistsWellFormed()
    ensures WellFormed(Devlists)
  {
  }

  /**
   * With the shipped table CPID 0x8015 gives DFU_IPHONEX for every BDID,
   * and every other CPID, 0x8010 included, gives DFU_UNKOWN_TYPE.
   */
  lemma ClassifyDevlists(cpid: nat, bdid: nat)
    ensures Classify(Devlists, cpid, bdid) == if cpid == 0x8015 then DfuIPhoneX else DfuUnknownType
  {
    if cpid == 0x8015 {
      ClassifyFirstMatch(Devlists, cpid, bdid, 0);
    } else {
      ClassifyNoMatch(Devlists, cpid, bdid);
    }
  }
}
