/**
 * H5TypeWriter of src/diagnostic/detail/h5typewriter.h: the part of an HDF5 diagnostic type
 * writer shared by every kind of diagnostic. It counts dumps, keeps one open file per quantity
 * (and drops it when the quantity's flush period is reached), creates a quantity's file on first
 * use, and walks the levels of a dump so that every MPI rank makes the same number of calls per
 * level, padding with empty calls up to the largest patch count of any rank.
 *
 * The HDF5 files are opaque tokens; the h5 writer the type writer talks to is a recorder of the
 * attribute dictionaries written, and of the files it makes.
 */
module H5TypeWriters {
  import opened Wrappers

  /** An open HDF5 file, by identity. */
  type FileToken = nat

  /** A value of an attribute dictionary. */
  datatype AttrValue = RealValue(r: real) | SizeValue(n: nat) | OtherValue(text: string)

  /** An attribute dictionary. */
  type Attributes = map<string, AttrValue>

  /** One writeAttributeDict(file, dict, path) call. */
  datatype DictWrite = DictWrite(file: FileToken, dict: Attributes, path: string)

  /** The diagnostic a call is for: its quantity and its size_t parameters. */
  datatype DiagnosticProperties = DiagnosticProperties(quantity: string, params: map<string, nat>)

  /** The name of the flush period parameter. */
  const FLUSH_EVERY: string := "flush_every"

  /** One call of initDataSets_'s initPatch: for a local patch (by its attributes key and id), or a padding call. */
  datatype InitPatchCall = PatchInit(level: nat, key: string, patchId: string) | PaddingInit(level: nat)

  // ---------------------------------------------------------------------------------------
  // std::to_string on levels and the "<level>_<patch>" keys

  function DigitChar(d: nat): (c: char)
    requires d < 10
    ensures '0' <= c <= '9'
  {
    "0123456789"[d]
  }

  function DigitValue(c: char): nat
  {
    if '0' <= c <= '9' then (c as int - '0' as int) as nat else 0
  }

  /** std::to_string of a level number: its decimal digits, most significant first, no leading zero. */
  function NatToDecimal(n: nat): (s: string)
    ensures |s| >= 1
    ensures forall i :: 0 <= i < |s| ==> '0' <= s[i] <= '9'
    ensures |s| > 1 ==> s[0] != '0'
  {
    if n < 10 then [DigitChar(n)] else NatToDecimal(n / 10) + [DigitChar(n % 10)]
  }

  /** The number a string of decimal digits denotes. */
  function DecimalValue(s: string): nat
  {
    if |s| == 0 then 0 else DecimalValue(s[..|s| - 1]) * 10 + DigitValue(s[|s| - 1])
  }

  /** Reading back the decimal form of a level gives the level. */
  lemma {:induction false} DecimalRoundTrip(n: nat)
    ensures DecimalValue(NatToDecimal(n)) == n
  {
    if n < 10 {
      DigitRoundTrip(n);
    } else {
      DecimalRoundTrip(n / 10);
      DigitRoundTrip(n % 10);
      var s := NatToDecimal(n);
      assert s[..|s| - 1] == NatToDecimal(n / 10);
    }
  }

  /** Reading back a digit gives the digit. */
  lemma DigitRoundTrip(d: nat)
    requires d < 10
    ensures DigitValue(DigitChar(d)) == d
  {
  }

  /** The key of a patch's attributes: std::to_string(lvl) + "_" + patchId. */
  function PatchKey(lvl: nat, patchId: string): (k: string)
    ensures |k| == |NatToDecimal(lvl)| + 1 + |patchId|
    ensures k[..|NatToDecimal(lvl)|] == NatToDecimal(lvl)
    ensures k[|NatToDecimal(lvl)|] == '_'
    ensures k[|NatToDecimal(lvl)| + 1..] == patchId
  {
    NatToDecimal(lvl) + "_" + patchId
  }

  /** Distinct (level, patch) pairs have distinct keys: the key names its level and its patch. */
  lemma PatchKeyInjective(l1: nat, id1: string, l2: nat, id2: string)
    requires PatchKey(l1, id1) == PatchKey(l2, id2)
    ensures l1 == l2 && id1 == id2
  {
    var d1, d2 := NatToDecimal(l1), NatToDecimal(l2);
    var k := PatchKey(l1, id1);
    assert |d1| == |d2| by {
      if |d1| < |d2| {
        assert false;
      } else if |d2| < |d1| {
        assert false;
      }
    }
    assert d1 == k[..|d1|] == d2;
    DecimalRoundTrip(l1);
    DecimalRoundTrip(l2);
  }

  // ---------------------------------------------------------------------------------------
  // the walk over levels

  /** The first level from lvl to maxLevel that a per-level map has no entry for, if any. */
  function FirstMissingLevel(levels: set<nat>, lvl: nat, maxLevel: nat): (r: Option<nat>)
    decreases maxLevel - lvl
    ensures r.None? <==> forall k :: lvl <= k <= maxLevel ==> k in levels
    ensures r.Some? ==> lvl <= r.value <= maxLevel && r.value !in levels
                        && forall k :: lvl <= k < r.value ==> k in levels
  {
    if lvl > maxLevel then None
    else if lvl !in levels then Some(lvl)
    else FirstMissingLevel(levels, lvl + 1, maxLevel)
  }

  /** The number of calls of each kind at one level: one per local patch, then padding up to maxPatches. */
  function PaddedCount(patchNbr: nat, maxPatches: nat): nat
  {
    if maxPatches > patchNbr then maxPatches - patchNbr else 0
  }

  /** initPatch's calls for one level: each local patch in order, with its key, then the paddings. */
  function LevelInitCalls(lvl: nat, ids: seq<string>, maxPatches: nat): (r: seq<InitPatchCall>)
    ensures |r| == |ids| + PaddedCount(|ids|, maxPatches)
    ensures forall i :: 0 <= i < |ids| ==> r[i] == PatchInit(lvl, PatchKey(lvl, ids[i]), ids[i])
    ensures forall i :: |ids| <= i < |r| ==> r[i] == PaddingInit(lvl)
  {
    seq(|ids|, i requires 0 <= i < |ids| => PatchInit(lvl, PatchKey(lvl, ids[i]), ids[i]))
    + seq(PaddedCount(|ids|, maxPatches), _ => PaddingInit(lvl))
  }

  /**
   * initDataSets_ from level lvl: the initPatch calls, and the level whose patchIDs.at(lvl)
   * throws out_of_range, if one does (the calls made before it stand).
   */
  function InitDataSetsCalls(patchIDs: map<nat, seq<string>>, lvl: nat, maxLevel: nat,
                             mpiMax: (nat, nat) -> nat): (seq<InitPatchCall>, Option<nat>)
    decreases maxLevel - lvl
  {
    if lvl > maxLevel then ([], None)
    else if lvl !in patchIDs then ([], Some(lvl))
    else
      var ids := patchIDs[lvl];
      var rest := InitDataSetsCalls(patchIDs, lvl + 1, maxLevel, mpiMax);
      (LevelInitCalls(lvl, ids, mpiMax(lvl, |ids|)) + rest.0, rest.1)
  }

  /** writeAttributes_'s writes for one level: each local patch's dict at its path, then empty dicts at "". */
  function LevelAttributeWrites(file: FileToken, lvl: nat, patches: seq<(string, Attributes)>, maxPatches: nat,
                                patchPath: (nat, string) -> string, empty: Attributes): (r: seq<DictWrite>)
    ensures |r| == |patches| + PaddedCount(|patches|, maxPatches)
    ensures forall i :: 0 <= i < |patches| ==> r[i] == DictWrite(file, patches[i].1, patchPath(lvl, patches[i].0))
    ensures forall i :: |patches| <= i < |r| ==> r[i] == DictWrite(file, empty, "")
  {
    seq(|patches|, i requires 0 <= i < |patches| => DictWrite(file, patches[i].1, patchPath(lvl, patches[i].0)))
    + seq(PaddedCount(|patches|, maxPatches), _ => DictWrite(file, empty, ""))
  }

  /**
   * writeAttributes_ from level lvl: the writes, ending with the file attributes at "/", and the
   * level whose patchAttributes.at(lvl) throws, if one does (then the file attributes are not written).
   */
  function WriteAttributesWrites(file: FileToken, fileAttributes: Attributes,
                                 patchAttributes: map<nat, seq<(string, Attributes)>>, lvl: nat, maxLevel: nat,
                                 mpiMax: (nat, nat) -> nat, patchPath: (nat, string) -> string,
                                 empty: Attributes): (seq<DictWrite>, Option<nat>)
    decreases maxLevel - lvl
  {
    if lvl > maxLevel then ([DictWrite(file, fileAttributes, "/")], None)
    else if lvl !in patchAttributes then ([], Some(lvl))
    else
      var patches := patchAttributes[lvl];
      var rest := WriteAttributesWrites(file, fileAttributes, patchAttributes, lvl + 1, maxLevel, mpiMax, patchPath, empty);
      (LevelAttributeWrites(file, lvl, patches, mpiMax(lvl, |patches|), patchPath, empty) + rest.0, rest.1)
  }

  /** initDataSets_ throws exactly at the first level it has no patch ids for. */
  lemma {:induction false} InitDataSetsThrowsAtFirstMissingLevel(patchIDs: map<nat, seq<string>>, lvl: nat, maxLevel: nat,
                                                                 mpiMax: (nat, nat) -> nat)
    ensures InitDataSetsCalls(patchIDs, lvl, maxLevel, mpiMax).1 == FirstMissingLevel(patchIDs.Keys, lvl, maxLevel)
    decreases maxLevel - lvl
  {
    if lvl <= maxLevel && lvl in patchIDs {
      InitDataSetsThrowsAtFirstMissingLevel(patchIDs, lvl + 1, maxLevel, mpiMax);
    }
  }

  /** writeAttributes_ throws exactly at the first level it has no patch attributes for. */
  lemma {:induction false} WriteAttributesThrowsAtFirstMissingLevel(file: FileToken, fileAttributes: Attributes,
                                                                    patchAttributes: map<nat, seq<(string, Attributes)>>,
                                                                    lvl: nat, maxLevel: nat, mpiMax: (nat, nat) -> nat,
                                                                    patchPath: (nat, string) -> string, empty: Attributes)
    ensures WriteAttributesWrites(file, fileAttributes, patchAttributes, lvl, maxLevel, mpiMax, patchPath, empty).1
            == FirstMissingLevel(patchAttributes.Keys, lvl, maxLevel)
    decreases maxLevel - lvl
  {
    if lvl <= maxLevel && lvl in patchAttributes {
      WriteAttributesThrowsAtFirstMissingLevel(file, fileAttributes, patchAttributes, lvl + 1, maxLevel, mpiMax, patchPath, empty);
    }
  }

  /** When no level is missing, writeAttributes_ ends with the file attributes at "/". */
  lemma {:induction false} WriteAttributesEndsAtRoot(file: FileToken, fileAttributes: Attributes,
                                                     patchAttributes: map<nat, seq<(string, Attributes)>>,
                                                     lvl: nat, maxLevel: nat, mpiMax: (nat, nat) -> nat,
                                                     patchPath: (nat, string) -> string, empty: Attributes)
    ensures var (writes, missing) := WriteAttributesWrites(file, fileAttributes, patchAttributes, lvl, maxLevel, mpiMax, patchPath, empty);
      missing.None? ==> |writes| > 0 && writes[|writes| - 1] == DictWrite(file, fileAttributes, "/")
    decreases maxLevel - lvl
  {
    if lvl <= maxLevel && lvl in patchAttributes {
      WriteAttributesEndsAtRoot(file, fileAttributes, patchAttributes, lvl + 1, maxLevel, mpiMax, patchPath, empty);
    }
  }

  // ---------------------------------------------------------------------------------------
  // the flush rule of finalize

  /**
   * finalize's flush test as the source writes it: flushEvery % dumpIdx == 0 (dumpIdx >= 1,
   * having just been incremented).
   */
  predicate FlushesAsWritten(flushEvery: nat, flushNever: nat, dumpIdx: nat)
    requires dumpIdx >= 1
  {
    flushEvery != flushNever && flushEvery % dumpIdx == 0
  }

  /**
   * The flush test the period evidently means: the quantity's file is dropped on every
   * flushEvery-th dump. A zero period never flushes.
   */
  predicate Flushes(flushEvery: nat, flushNever: nat, dumpIdx: nat)
  {
    flushEvery != flushNever && flushEvery != 0 && dumpIdx % flushEvery == 0
  }

  /** As written, once more dumps have been made than the period, the file is never flushed again. */
  lemma AsWrittenStopsFlushing(flushEvery: nat, flushNever: nat, dumpIdx: nat)
    requires flushEvery >= 1 && dumpIdx > flushEvery
    ensures !FlushesAsWritten(flushEvery, flushNever, dumpIdx)
  {
    assert flushEvery % dumpIdx == flushEvery;
  }

  /** With flush_every = 100 (and flush_never anything else), the 200th dump does not flush as written, but should. */
  lemma AsWrittenMissesTheSecondPeriod(flushNever: nat)
    requires flushNever != 100
    ensures !FlushesAsWritten(100, flushNever, 200) && Flushes(100, flushNever, 200)
  {
  }

  /** The corrected rule flushes on every multiple of the period, and only there. */
  lemma {:induction false} FlushesOnMultiples(flushEvery: nat, flushNever: nat, k: nat, r: nat)
    requires flushEvery >= 1 && flushEvery != flushNever && r < flushEvery
    ensures Flushes(flushEvery, flushNever, k * flushEvery + r) <==> r == 0
  {
    ModOfMultiplePlus(flushEvery, k, r);
  }

  lemma {:induction false} ModOfMultiplePlus(m: nat, k: nat, r: nat)
    requires m >= 1 && r < m
    ensures (k * m + r) % m == r
  {
    if k > 0 {
      ModOfMultiplePlus(m, k - 1, r);
      assert k * m + r == (k - 1) * m + r + m;
      ModAddDivisor((k - 1) * m + r, m);
    }
  }

  /** Adding the divisor does not change the remainder. */
  lemma ModAddDivisor(x: nat, m: nat)
    requires m >= 1
    ensures (x + m) % m == x % m
  {
    var a, b := x % m, (x + m) % m;
    var q1, q2 := x / m, (x + m) / m;
    assert x == m * q1 + a;
    assert x + m == m * q2 + b;
    var t := q2 - q1 - 1;
    assert m * q2 == m * q1 + m * t + m;
    assert m * t == a - b;
  }

  /** Under the corrected rule, flushing is periodic in the dump index. */
  lemma FlushesPeriodic(flushEvery: nat, flushNever: nat, dumpIdx: nat)
    ensures Flushes(flushEvery, flushNever, dumpIdx + flushEvery) == Flushes(flushEvery, flushNever, dumpIdx)
  {
    if flushEvery != 0 {
      ModAddDivisor(dumpIdx, flushEvery);
    }
  }

  // ---------------------------------------------------------------------------------------
  // the h5 writer and the type writer

  /** The parts of the h5 writer a type writer uses, and what it has been asked to do. */
  class Writer {
    const minLevel: nat
    /** Writer::flush_never, the flush_every value that means "never flush". */
    const flushNever: nat
    /** getPatchPathAddTimestamp(lvl, patchId) */
    const patchPath: (nat, string) -> string
    /** modelView().getEmptyPatchProperties() */
    const emptyPatchProperties: Attributes
    /** The masses of modelView().getIons(), population by population. */
    const popMasses: seq<real>
    /** Every writeAttributeDict call, in order. */
    var writes: seq<DictWrite>
    /** How many files makeFile has made; the next one gets this token. */
    var filesMade: nat

    constructor (minLevel: nat, flushNever: nat, patchPath: (nat, string) -> string, emptyPatchProperties: Attributes, popMasses: seq<real>)
      ensures this.minLevel == minLevel && this.flushNever == flushNever && this.patchPath == patchPath
      ensures this.emptyPatchProperties == emptyPatchProperties && this.popMasses == popMasses
      ensures writes == [] && filesMade == 0
    {
      this.minLevel := minLevel;
      this.flushNever := flushNever;
      this.patchPath := patchPath;
      this.emptyPatchProperties := emptyPatchProperties;
      this.popMasses := popMasses;
      writes := [];
      filesMade := 0;
    }

    method WriteAttributeDict(file: FileToken, dict: Attributes, path: string)
      modifies this`writes
      ensures writes == old(writes) + [DictWrite(file, dict, path)]
    {
      writes := writes + [DictWrite(file, dict, path)];
    }

    /** makeFile(diagnostic): a new file, distinct from every one made before. */
    method MakeFile(diagnostic: DiagnosticProperties) returns (f: FileToken)
      modifies this`filesMade
      ensures f == old(filesMade) && filesMade == old(filesMade) + 1
    {
      f := filesMade;
      filesMade := filesMade + 1;
    }
  }

  class H5TypeWriter {
    const writer: Writer
    /** The number of dumps finalized so far. */
    var dumpIdx: nat
    /** The open file of each quantity. */
    var fileData: map<string, FileToken>

    constructor (writer: Writer)
      ensures this.writer == writer && dumpIdx == 0 && fileData == map[]
    {
      this.writer := writer;
      dumpIdx := 0;
      fileData := map[];
    }

    /**
     * finalize: count the dump, then drop the quantity's file when its flush period is reached
     * (by the corrected rule Flushes); no other quantity's file is touched. The source asserts
     * that the diagnostic has a flush_every parameter.
     */
    method Finalize(diagnostic: DiagnosticProperties)
      requires FLUSH_EVERY in diagnostic.params
      modifies this`dumpIdx, this`fileData
      ensures dumpIdx == old(dumpIdx) + 1
      ensures var flushEvery := diagnostic.params[FLUSH_EVERY];
        fileData == if Flushes(flushEvery, writer.flushNever, dumpIdx) then old(fileData) - {diagnostic.quantity} else old(fileData)
      ensures Flushes(diagnostic.params[FLUSH_EVERY], writer.flushNever, dumpIdx) ==> diagnostic.quantity !in fileData
      ensures forall q :: q in old(fileData) && q != diagnostic.quantity ==> q in fileData && fileData[q] == old(fileData)[q]
    {
      dumpIdx := dumpIdx + 1;
      var flushEvery := diagnostic.params[FLUSH_EVERY];
      if Flushes(flushEvery, writer.flushNever, dumpIdx) {
        fileData := fileData - {diagnostic.quantity};
      }
    }

    /**
     * checkCreateFileFor_: for each of the names vars, when the diagnostic's quantity is
     * tree + var and it has no file yet, make one for it. An existing file is never replaced.
     */
    method CheckCreateFileFor(diagnostic: DiagnosticProperties, tree: string, vars: seq<string>)
      modifies this`fileData, writer`filesMade
      ensures var created := diagnostic.quantity !in old(fileData)
                             && exists i :: 0 <= i < |vars| && diagnostic.quantity == tree + vars[i];
        && fileData == (if created then old(fileData)[diagnostic.quantity := old(writer.filesMade)] else old(fileData))
        && writer.filesMade == old(writer.filesMade) + (if created then 1 else 0)
      ensures forall q :: q in old(fileData) ==> q in fileData && fileData[q] == old(fileData)[q]
    {
      var i := 0;
      while i < |vars|
        invariant 0 <= i <= |vars|
        invariant var created := diagnostic.quantity !in old(fileData)
                                 && exists j :: 0 <= j < i && diagnostic.quantity == tree + vars[j];
          && fileData == (if created then old(fileData)[diagnostic.quantity := old(writer.filesMade)] else old(fileData))
          && writer.filesMade == old(writer.filesMade) + (if created then 1 else 0)
      {
        if diagnostic.quantity == tree + vars[i] && diagnostic.quantity !in fileData {
          var f := writer.MakeFile(diagnostic);
          fileData := fileData[diagnostic.quantity := f];
        }
        i := i + 1;
      }
    }

    /** initDataSets_ on one level: initPatch for each local patch, then padding calls up to the MPI maximum. */
    method InitLevel(lvl: nat, lvlPatches: seq<string>, maxPatches: nat) returns (here: seq<InitPatchCall>)
      ensures here == LevelInitCalls(lvl, lvlPatches, maxPatches)
    {
      var patchNbr := |lvlPatches|;
      here := [];
      var i := 0;
      while i < patchNbr
        invariant 0 <= i <= patchNbr && |here| == i
        invariant forall j :: 0 <= j < i ==> here[j] == PatchInit(lvl, PatchKey(lvl, lvlPatches[j]), lvlPatches[j])
      {
        here := here + [PatchInit(lvl, PatchKey(lvl, lvlPatches[i]), lvlPatches[i])];
        i := i + 1;
      }
      i := patchNbr;
      while i < maxPatches
        invariant patchNbr <= i && |here| == i
        invariant i <= maxPatches || i == patchNbr
        invariant forall j :: 0 <= j < patchNbr ==> here[j] == PatchInit(lvl, PatchKey(lvl, lvlPatches[j]), lvlPatches[j])
        invariant forall j :: patchNbr <= j < i ==> here[j] == PaddingInit(lvl)
      {
        here := here + [PaddingInit(lvl)];
        i := i + 1;
      }
    }

    /**
     * initDataSets_: for each level from the writer's minLevel to maxLevel, initPatch once per
     * local patch, in order, with its "<level>_<patch>" key, then once without a patch for each
     * patch other ranks have beyond this rank's count. mpiMax(lvl, n) is mpi::max(n) at that level.
     * missing is the level patchIDs.at throws out_of_range for, if any.
     */
    method InitDataSets(patchIDs: map<nat, seq<string>>, maxLevel: nat, mpiMax: (nat, nat) -> nat)
      returns (calls: seq<InitPatchCall>, missing: Option<nat>)
      ensures (calls, missing) == InitDataSetsCalls(patchIDs, writer.minLevel, maxLevel, mpiMax)
    {
      calls := [];
      var lvl := writer.minLevel;
      assert calls + InitDataSetsCalls(patchIDs, lvl, maxLevel, mpiMax).0 == InitDataSetsCalls(patchIDs, lvl, maxLevel, mpiMax).0;
      while lvl <= maxLevel
        invariant writer.minLevel <= lvl
        invariant lvl <= maxLevel + 1 || lvl == writer.minLevel
        invariant InitDataSetsCalls(patchIDs, writer.minLevel, maxLevel, mpiMax).0
                  == calls + InitDataSetsCalls(patchIDs, lvl, maxLevel, mpiMax).0
        invariant InitDataSetsCalls(patchIDs, writer.minLevel, maxLevel, mpiMax).1
                  == InitDataSetsCalls(patchIDs, lvl, maxLevel, mpiMax).1
        decreases maxLevel - lvl
      {
        if lvl !in patchIDs {
          assert calls + [] == calls;
          return calls, Some(lvl);
        }
        var lvlPatches := patchIDs[lvl];
        var patchNbr := |lvlPatches|;
        var maxPatches := mpiMax(lvl, patchNbr);
        var here := InitLevel(lvl, lvlPatches, maxPatches);
        assert calls + (here + InitDataSetsCalls(patchIDs, lvl + 1, maxLevel, mpiMax).0)
               == (calls + here) + InitDataSetsCalls(patchIDs, lvl + 1, maxLevel, mpiMax).0;
        calls := calls + here;
        lvl := lvl + 1;
      }
      missing := None;
      assert calls + [] == calls;
    }

    /** writeAttributes_ on one level: each local patch's dict, then empty dicts up to the MPI maximum. */
    method WriteLevelAttributes(file: FileToken, lvl: nat, lvlPatches: seq<(string, Attributes)>, maxPatches: nat)
      modifies writer`writes
      ensures writer.writes
              == old(writer.writes) + LevelAttributeWrites(file, lvl, lvlPatches, maxPatches, writer.patchPath, writer.emptyPatchProperties)
    {
      var patchNbr := |lvlPatches|;
      ghost var before := writer.writes;
      ghost var here: seq<DictWrite> := [];
      var i := 0;
      while i < patchNbr
        invariant 0 <= i <= patchNbr && |here| == i
        invariant writer.writes == before + here
        invariant forall j :: 0 <= j < i ==> here[j] == DictWrite(file, lvlPatches[j].1, writer.patchPath(lvl, lvlPatches[j].0))
      {
        writer.WriteAttributeDict(file, lvlPatches[i].1, writer.patchPath(lvl, lvlPatches[i].0));
        here := here + [DictWrite(file, lvlPatches[i].1, writer.patchPath(lvl, lvlPatches[i].0))];
        i := i + 1;
      }
      i := patchNbr;
      while i < maxPatches
        invariant patchNbr <= i && |here| == i
        invariant i <= maxPatches || i == patchNbr
        invariant writer.writes == before + here
        invariant forall j :: 0 <= j < patchNbr ==> here[j] == DictWrite(file, lvlPatches[j].1, writer.patchPath(lvl, lvlPatches[j].0))
        invariant forall j :: patchNbr <= j < i ==> here[j] == DictWrite(file, writer.emptyPatchProperties, "")
      {
        writer.WriteAttributeDict(file, writer.emptyPatchProperties, "");
        here := here + [DictWrite(file, writer.emptyPatchProperties, "")];
        i := i + 1;
      }
    }

    /**
     * writeAttributes_: for each level from minLevel to maxLevel, each local patch's dict at its
     * patch path, then the empty patch properties at "" up to the most patches of any rank; at
     * the end the file attributes at "/". missing is the level patchAttributes.at throws for.
     */
    method WriteAttributes(file: FileToken, fileAttributes: Attributes,
                           patchAttributes: map<nat, seq<(string, Attributes)>>, maxLevel: nat,
                           mpiMax: (nat, nat) -> nat)
      returns (missing: Option<nat>)
      modifies writer`writes
      ensures var (writes, err) := WriteAttributesWrites(file, fileAttributes, patchAttributes, writer.minLevel, maxLevel,
                                                         mpiMax, writer.patchPath, writer.emptyPatchProperties);
        writer.writes == old(writer.writes) + writes && missing == err
    {
      var lvl := writer.minLevel;
      while lvl <= maxLevel
        invariant writer.minLevel <= lvl
        invariant lvl <= maxLevel + 1 || lvl == writer.minLevel
        invariant var total := WriteAttributesWrites(file, fileAttributes, patchAttributes, writer.minLevel, maxLevel,
                                                     mpiMax, writer.patchPath, writer.emptyPatchProperties);
          var rest := WriteAttributesWrites(file, fileAttributes, patchAttributes, lvl, maxLevel,
                                            mpiMax, writer.patchPath, writer.emptyPatchProperties);
          old(writer.writes) + total.0 == writer.writes + rest.0 && total.1 == rest.1
        decreases maxLevel - lvl
      {
        if lvl !in patchAttributes {
          return Some(lvl);
        }
        var lvlPatches := patchAttributes[lvl];
        var patchNbr := |lvlPatches|;
        var maxPatches := mpiMax(lvl, patchNbr);
        WriteLevelAttributes(file, lvl, lvlPatches, maxPatches);
        lvl := lvl + 1;
      }
      writer.WriteAttributeDict(file, fileAttributes, "/");
      missing := None;
    }

    /** writeIonPopAttributes_: one {"pop_mass": mass} dict at "/" per ion population, in order. */
    method WriteIonPopAttributes(file: FileToken)
      modifies writer`writes
      ensures writer.writes == old(writer.writes) + PopMassWrites(file, writer.popMasses)
    {
      var k := 0;
      while k < |writer.popMasses|
        invariant 0 <= k <= |writer.popMasses|
        invariant writer.writes == old(writer.writes) + PopMassWrites(file, writer.popMasses[..k])
      {
        writer.WriteAttributeDict(file, map["pop_mass" := RealValue(writer.popMasses[k])], "/");
        assert writer.popMasses[..k + 1] == writer.popMasses[..k] + [writer.popMasses[k]];
        PopMassWritesAppend(file, writer.popMasses[..k], writer.popMasses[k]);
        k := k + 1;
      }
      assert writer.popMasses[..k] == writer.popMasses;
    }

    /** writeGhostsAttr_: {"ghosts": ghosts} at path, or at "" when null. */
    method WriteGhostsAttr(file: FileToken, path: string, ghosts: nat, isNull: bool)
      modifies writer`writes
      ensures writer.writes == old(writer.writes) + [DictWrite(file, map["ghosts" := SizeValue(ghosts)], if isNull then "" else path)]
    {
      writer.WriteAttributeDict(file, map["ghosts" := SizeValue(ghosts)], if isNull then "" else path);
    }
  }

  /** The pop_mass dicts written for ion populations of the given masses: one each, at "/", in order. */
  function PopMassWrites(file: FileToken, masses: seq<real>): (r: seq<DictWrite>)
    ensures |r| == |masses|
    ensures forall k :: 0 <= k < |r| ==> r[k] == DictWrite(file, map["pop_mass" := RealValue(masses[k])], "/")
  {
    seq(|masses|, k requires 0 <= k < |masses| => DictWrite(file, map["pop_mass" := RealValue(masses[k])], "/"))
  }

  lemma PopMassWritesAppend(file: FileToken, masses: seq<real>, m: real)
    ensures PopMassWrites(file, masses + [m]) == PopMassWrites(file, masses) + PopMassWrites(file, [m])
  {
    var l, r := PopMassWrites(file, masses + [m]), PopMassWrites(file, masses) + PopMassWrites(file, [m]);
    assert |l| == |r|;
    forall k | 0 <= k < |l| ensures l[k] == r[k] {
      if k < |masses| {
        assert (masses + [m])[k] == masses[k];
      }
    }
  }
}
