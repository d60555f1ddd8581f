/** The server's settings and the partial configurations a client sends. */
module Config {
  import opened Words

  /** The fields of `Ctrl_Thread`.  `numSum` has no default: the constructor leaves it uninitialised. */
  datatype Settings = Settings(
    chipMask: Octet, readPeriod: u32, range: Octet, chanMask: Octet, nReads: u32, numSum: u32,
    numTriggers: i32, bias1: u32, bias2: u32)

  /** A configuration document: every key may be missing. */
  datatype Document = Document(
    chipMask: Option<Octet>, readPeriod: Option<u32>, range: Option<Octet>, chanMask: Option<Octet>,
    nReads: Option<u32>, numSum: Option<u32>, numTriggers: Option<i32>, bias1: Option<u32>, bias2: Option<u32>)

  function Defaults(numSum: u32): Settings {
    Settings(Octet(0xff), 0, Octet(0), Octet(0xff), 1024, numSum, 1000, 0, 0)
  }

  /** `parse_config`. */
  function Merge(s: Settings, d: Document): Settings {
    Settings(Or(d.chipMask, s.chipMask), Or(d.readPeriod, s.readPeriod), Or(d.range, s.range),
             Or(d.chanMask, s.chanMask), Or(d.nReads, s.nReads), Or(d.numSum, s.numSum),
             Or(d.numTriggers, s.numTriggers), Or(d.bias1, s.bias1), Or(d.bias2, s.bias2))
  }

  /** All the documents received so far, one after the other. */
  function MergeAll(s: Settings, ds: seq<Document>): Settings {
    if ds == [] then s else Merge(MergeAll(s, ds[..|ds| - 1]), ds[|ds| - 1])
  }

  /** `v` is the last value that any document supplied, or the default if none did. */
  ghost predicate LastWins<T(!new)>(ds: seq<Document>, key: Document -> Option<T>, default: T, v: T) {
    || (exists k :: 0 <= k < |ds| && key(ds[k]) == Some(v) && forall j :: k < j < |ds| ==> key(ds[j]) == None)
    || (v == default && forall j :: 0 <= j < |ds| ==> key(ds[j]) == None)
  }

  lemma LastWinsStep<T(!new)>(ds: seq<Document>, key: Document -> Option<T>, default: T, v: T)
    requires ds != [] && LastWins(ds[..|ds| - 1], key, default, v)
    ensures LastWins(ds, key, default, Or(key(ds[|ds| - 1]), v))
  {
    var init, last := ds[..|ds| - 1], |ds| - 1;
    if key(ds[last]).Some? {
      assert key(ds[last]) == Some(Or(key(ds[last]), v));
    } else if k :| 0 <= k < |init| && key(init[k]) == Some(v) && forall j :: k < j < |init| ==> key(init[j]) == None {
      assert key(ds[k]) == Some(v);
      forall j | k < j < |ds| ensures key(ds[j]) == None {
        if j < last { assert init[j] == ds[j]; }
      }
    } else {
      forall j | 0 <= j < |ds| ensures key(ds[j]) == None {
        if j < last { assert init[j] == ds[j]; }
      }
    }
  }

  /** Every setting is the last value supplied for its key, or its default, whatever documents were sent. */
  lemma {:induction false} MergeAllIsLastWriter(s: Settings, ds: seq<Document>)
    ensures LastWins(ds, (d: Document) => d.chipMask, s.chipMask, MergeAll(s, ds).chipMask)
    ensures LastWins(ds, (d: Document) => d.readPeriod, s.readPeriod, MergeAll(s, ds).readPeriod)
    ensures LastWins(ds, (d: Document) => d.range, s.range, MergeAll(s, ds).range)
    ensures LastWins(ds, (d: Document) => d.chanMask, s.chanMask, MergeAll(s, ds).chanMask)
    ensures LastWins(ds, (d: Document) => d.nReads, s.nReads, MergeAll(s, ds).nReads)
    ensures LastWins(ds, (d: Document) => d.numSum, s.numSum, MergeAll(s, ds).numSum)
    ensures LastWins(ds, (d: Document) => d.numTriggers, s.numTriggers, MergeAll(s, ds).numTriggers)
    ensures LastWins(ds, (d: Document) => d.bias1, s.bias1, MergeAll(s, ds).bias1)
    ensures LastWins(ds, (d: Document) => d.bias2, s.bias2, MergeAll(s, ds).bias2)
  {
    if ds != [] {
      var m := MergeAll(s, ds[..|ds| - 1]);
      MergeAllIsLastWriter(s, ds[..|ds| - 1]);
      LastWinsStep(ds, (d: Document) => d.chipMask, s.chipMask, m.chipMask);
      LastWinsStep(ds, (d: Document) => d.readPeriod, s.readPeriod, m.readPeriod);
      LastWinsStep(ds, (d: Document) => d.range, s.range, m.range);
      LastWinsStep(ds, (d: Document) => d.chanMask, s.chanMask, m.chanMask);
      LastWinsStep(ds, (d: Document) => d.nReads, s.nReads, m.nReads);
      LastWinsStep(ds, (d: Document) => d.numSum, s.numSum, m.numSum);
      LastWinsStep(ds, (d: Document) => d.numTriggers, s.numTriggers, m.numTriggers);
      LastWinsStep(ds, (d: Document) => d.bias1, s.bias1, m.bias1);
      LastWinsStep(ds, (d: Document) => d.bias2, s.bias2, m.bias2);
    }
  }
}
