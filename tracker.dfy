/** The tracked-range map of drone_detection.py (`TRACKED`): keys derived
    from bin coordinates, entries created or refreshed by detections,
    refreshed by the background prober, and evicted once their level is back
    within the threshold of the stored baseline. */
module Tracker {
  import opened Wrappers
  import opened Levels
  import opened Grid
  import Classifier

  /** The configuration constants the detector reads at import time. */
  datatype Config = Config(
    startMhz: real,        // START_MHZ
    stepMhz: real,         // STEP_MHZ
    binWidthMhz: real,     // BIN_WIDTH_MHZ = sample_rate / FFT_SIZE / 1e6
    thresholdDb: real,     // THRESHOLD_DB
    ignoreLevelDbm: real,  // IGNORE_LEVEL_DBM
    minBins: int,          // MIN_BINS
    stddevMaxDb: real)     // STDDEV_MAX_DB

  /** MIN_BINS when the configuration file omits `min_bins`. */
  const DefaultMinBins: nat := 3

  /** Defaults used when the configuration file omits a key. */
  function DefaultConfig(startMhz: real, stepMhz: real, sampleRate: real): Config
  {
    Config(startMhz, stepMhz, sampleRate / 256.0 / 1000000.0, 10.0, -100.0, DefaultMinBins, 5.0)
  }

  /** Bin coordinates of a run: sweep row `step`, bins `[start, end)`. */
  datatype BinRange = BinRange(step: nat, start: nat, end: nat)

  /** A tracked range's key `(key_start, key_end)` in MHz. */
  datatype FreqKey = FreqKey(lo: real, hi: real)

  /** What `measure_rssi` returns: a timestamp and one reading per auxiliary
      receiver. */
  datatype Probe = Probe(timestamp: real, slaves: seq<real>)

  /** One `TRACKED` entry. */
  datatype Info = Info(
    baseline: real,                      // robust baseline level at creation
    master: real,                        // latest robust level of the primary receiver
    slaves: seq<real>,
    timestamp: real,
    idx: BinRange,
    count: nat,
    kind: Option<Classifier.Label>)

  datatype Sign = Up | Down

  /** A run that passed every reject rule, with its robust levels. */
  datatype Detection = Detection(idx: BinRange, sign: Sign, meanBase: real, meanCurr: real)

  /** One printed alert line: sign, range, delta, class, the "stable signal"
      flag and the auxiliary readings. */
  datatype Report = Report(sign: Sign, key: FreqKey, delta: real, kind: Option<Classifier.Label>,
                           stable: bool, slaves: seq<real>)

  type Tracked = map<FreqKey, Info>

  /** The key depends only on the bin coordinates and the configuration. */
  function KeyOf(cfg: Config, r: BinRange): FreqKey
  {
    FreqKey(cfg.startMhz + (r.step as real) * cfg.stepMhz + (r.start as real) * cfg.binWidthMhz,
            cfg.startMhz + (r.step as real) * cfg.stepMhz + (r.end as real) * cfg.binWidthMhz)
  }

  /** The frequency in Hz at which a range is probed: its centre times 1e6. */
  function ProbeHz(k: FreqKey): real
  {
    ((k.lo + k.hi) / 2.0) * 1000000.0
  }

  predicate InBounds(r: BinRange, s: Sweep)
  {
    r.step < |s| && r.start < r.end <= |s[r.step]|
  }

  /** The invariant every entry keeps: its key is the key of its bins, its
      class is the class of its key, it was seen at least once and its bins
      lie inside the sweep shape. */
  ghost predicate EntryOk(cfg: Config, k: FreqKey, info: Info, shape: Sweep)
  {
    && k == KeyOf(cfg, info.idx)
    && info.kind == Classifier.Classify(k.lo, k.hi)
    && info.count >= 1
    && InBounds(info.idx, shape)
  }

  ghost predicate TrackerInv(cfg: Config, t: Tracked, shape: Sweep)
  {
    forall k :: k in t ==> EntryOk(cfg, k, t[k], shape)
  }

  /** Lines 224-241 (plus the report of lines 243-256) for one detection:
      probe the range, then create the entry or refresh it. */
  function ApplyOne(cfg: Config, t: Tracked, d: Detection, measure: real -> Probe): (r: (Tracked, Report))
  {
    var key := KeyOf(cfg, d.idx);
    var p := measure(ProbeHz(key));
    var info :=
      if key !in t then
        Info(d.meanBase, d.meanCurr, p.slaves, p.timestamp, d.idx, 1, Classifier.Classify(key.lo, key.hi))
      else
        t[key].(master := d.meanCurr, slaves := p.slaves, timestamp := p.timestamp, idx := d.idx,
                count := t[key].count + 1);
    (t[key := info], Report(d.sign, key, d.meanCurr - d.meanBase, info.kind, info.count > 3, p.slaves))
  }

  /** What one detection does to the tracker and what it reports: the
      range's key is present afterwards, no other entry changes, a new entry
      starts at count 1 with the detection's baseline and the band's label,
      an existing one keeps its baseline and label and counts one more
      confirmation; the report is stable past three confirmations. */
  lemma ApplyOneEffect(cfg: Config, t: Tracked, d: Detection, measure: real -> Probe)
    ensures var r := ApplyOne(cfg, t, d, measure);
      var key := KeyOf(cfg, d.idx);
      && r.0.Keys == t.Keys + {key}
      && (forall k :: k in t && k != key ==> r.0[k] == t[k])
      && r.0[key].count == (if key in t then t[key].count + 1 else 1)
      && r.0[key].baseline == (if key in t then t[key].baseline else d.meanBase)
      && r.0[key].kind == (if key in t then t[key].kind else Classifier.Classify(key.lo, key.hi))
      && r.0[key].master == d.meanCurr && r.0[key].idx == d.idx
      && r.0[key].slaves == measure(ProbeHz(key)).slaves
      && r.0[key].timestamp == measure(ProbeHz(key)).timestamp
      && r.1.key == key && r.1.sign == d.sign && r.1.delta == d.meanCurr - d.meanBase
      && r.1.kind == r.0[key].kind && r.1.slaves == measure(ProbeHz(key)).slaves
      && (r.1.stable <==> r.0[key].count > 3)
  {
  }

  /** Detections applied in order, collecting the reports. */
  function ApplyAll(cfg: Config, t: Tracked, ds: seq<Detection>, measure: real -> Probe): (Tracked, seq<Report>)
  {
    if ds == [] then (t, [])
    else
      var (t1, rs) := ApplyAll(cfg, t, ds[..|ds| - 1], measure);
      var (t2, r) := ApplyOne(cfg, t1, ds[|ds| - 1], measure);
      (t2, rs + [r])
  }

  /** Creation and refresh keep the entry invariant. */
  lemma {:induction false} ApplyAllKeepsInv(cfg: Config, t: Tracked, ds: seq<Detection>,
                                            measure: real -> Probe, shape: Sweep)
    requires TrackerInv(cfg, t, shape)
    requires forall k :: 0 <= k < |ds| ==> InBounds(ds[k].idx, shape)
    ensures TrackerInv(cfg, ApplyAll(cfg, t, ds, measure).0, shape)
    ensures |ApplyAll(cfg, t, ds, measure).1| == |ds|
  {
    if ds != [] {
      ApplyAllKeepsInv(cfg, t, ds[..|ds| - 1], measure, shape);
    }
  }

  /** The keys of a list of detections. */
  function KeysOf(cfg: Config, ds: seq<Detection>): set<FreqKey>
  {
    if ds == [] then {} else KeysOf(cfg, ds[..|ds| - 1]) + {KeyOf(cfg, ds[|ds| - 1].idx)}
  }

  lemma {:induction false} KeysOfIff(cfg: Config, ds: seq<Detection>, x: FreqKey)
    ensures x in KeysOf(cfg, ds) <==> exists k :: 0 <= k < |ds| && x == KeyOf(cfg, ds[k].idx)
  {
    if ds != [] {
      var n := |ds| - 1;
      KeysOfIff(cfg, ds[..n], x);
      if x in KeysOf(cfg, ds[..n]) {
        var k :| 0 <= k < n && x == KeyOf(cfg, ds[..n][k].idx);
        assert ds[..n][k] == ds[k];
      }
      if exists k :: 0 <= k < n && x == KeyOf(cfg, ds[k].idx) {
        var k :| 0 <= k < n && x == KeyOf(cfg, ds[k].idx);
        assert ds[..n][k] == ds[k];
      }
    }
  }

  /** After applying detections, the keys are the old keys plus the key of
      every detection. */
  lemma {:induction false} ApplyAllKeys(cfg: Config, t: Tracked, ds: seq<Detection>, measure: real -> Probe)
    ensures ApplyAll(cfg, t, ds, measure).0.Keys == t.Keys + set k | 0 <= k < |ds| :: KeyOf(cfg, ds[k].idx)
  {
    ApplyAllKeysOf(cfg, t, ds, measure);
    forall x ensures x in KeysOf(cfg, ds) <==> x in set k | 0 <= k < |ds| :: KeyOf(cfg, ds[k].idx) {
      KeysOfIff(cfg, ds, x);
    }
  }

  lemma {:induction false} ApplyAllKeysOf(cfg: Config, t: Tracked, ds: seq<Detection>, measure: real -> Probe)
    ensures ApplyAll(cfg, t, ds, measure).0.Keys == t.Keys + KeysOf(cfg, ds)
  {
    if ds != [] {
      var n := |ds| - 1;
      ApplyAllKeysOf(cfg, t, ds[..n], measure);
      var t1 := ApplyAll(cfg, t, ds[..n], measure).0;
      assert ApplyAll(cfg, t, ds, measure).0 == ApplyOne(cfg, t1, ds[n], measure).0;
    }
  }

  /** A range reconfirmed with the same bins in the next cycle keeps its key
      and baseline; only its count grows. */
  lemma ReconfirmKeepsKey(cfg: Config, t: Tracked, d: Detection, d': Detection, measure: real -> Probe)
    requires d'.idx == d.idx
    ensures var t1 := ApplyOne(cfg, t, d, measure).0;
      var t2 := ApplyOne(cfg, t1, d', measure).0;
      var key := KeyOf(cfg, d.idx);
      && t2.Keys == t1.Keys
      && t2[key].count == t1[key].count + 1
      && t2[key].baseline == t1[key].baseline
      && t2[key].kind == t1[key].kind
  {
  }

  /** The robust level of an entry's bins in the current sweep. */
  function LevelNow(info: Info, sweep: Sweep): real
    requires InBounds(info.idx, sweep)
  {
    Robust(sweep[info.idx.step][info.idx.start..info.idx.end])
  }

  /** An entry is evicted when its level is back within the threshold of the
      baseline stored at creation. */
  predicate Collapsed(cfg: Config, info: Info, sweep: Sweep)
    requires InBounds(info.idx, sweep)
  {
    Abs(LevelNow(info, sweep) - info.baseline) < cfg.thresholdDb
  }

  function Abs(x: real): real { if x < 0.0 then -x else x }

  ghost predicate AllInBounds(t: Tracked, sweep: Sweep)
  {
    forall k :: k in t ==> InBounds(t[k].idx, sweep)
  }

  /** Lines 261-266: re-measure every entry, including the ones created in
      this cycle, and drop those that collapsed. */
  function Evict(cfg: Config, t: Tracked, sweep: Sweep): (r: Tracked)
    requires AllInBounds(t, sweep)
    ensures forall k :: k in r <==> k in t && !Collapsed(cfg, t[k], sweep)
    ensures forall k :: k in r ==> r[k] == t[k]
  {
    map k | k in t && !Collapsed(cfg, t[k], sweep) :: t[k]
  }

  /** After eviction every remaining entry deviates from its stored baseline
      by at least the threshold on the current sweep. */
  lemma EvictLeavesDeviating(cfg: Config, t: Tracked, sweep: Sweep)
    requires AllInBounds(t, sweep)
    ensures var r := Evict(cfg, t, sweep);
      forall k :: k in r ==> InBounds(r[k].idx, sweep) && Abs(LevelNow(r[k], sweep) - r[k].baseline) >= cfg.thresholdDb
  {
  }

  /** Evicting twice against the same sweep removes nothing more. */
  lemma EvictIdempotent(cfg: Config, t: Tracked, sweep: Sweep)
    requires AllInBounds(t, sweep)
    ensures AllInBounds(Evict(cfg, t, sweep), sweep)
    ensures Evict(cfg, Evict(cfg, t, sweep), sweep) == Evict(cfg, t, sweep)
  {
  }

  /** Eviction only removes entries, so it keeps the entry invariant. */
  lemma EvictKeepsInv(cfg: Config, t: Tracked, sweep: Sweep, shape: Sweep)
    requires AllInBounds(t, sweep) && TrackerInv(cfg, t, shape)
    ensures TrackerInv(cfg, Evict(cfg, t, sweep), shape)
  {
  }

  /** `_refresh_range`'s effect on the entry: new auxiliary readings and
      timestamp from probing the range's centre, nothing else. */
  function Refreshed(key: FreqKey, info: Info, measure: real -> Probe): (r: Info)
    ensures r.slaves == measure(ProbeHz(key)).slaves && r.timestamp == measure(ProbeHz(key)).timestamp
    ensures r.(slaves := info.slaves, timestamp := info.timestamp) == info
  {
    var p := measure(ProbeHz(key));
    info.(slaves := p.slaves, timestamp := p.timestamp)
  }

  /** Refreshing keeps the entry invariant (it does not touch key, class,
      count or bins). */
  lemma RefreshKeepsInv(cfg: Config, k: FreqKey, info: Info, measure: real -> Probe, shape: Sweep)
    requires EntryOk(cfg, k, info, shape)
    ensures EntryOk(cfg, k, Refreshed(k, info, measure), shape)
  {
  }
}
