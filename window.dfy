/** The eight `deque(maxlen=WINDOW_SEC)` channels (mailer.py:38-47) and the
    aligned per-reading appends of the reader loop (mailer.py:189-200). */
module Window {
  import opened Wrappers
  import opened Telemetry

  /** What a `deque(maxlen=n)` holds after the elements of `s` were appended
      to it in order: the last `n` of them, or all when there are fewer. */
  function Window<T>(s: seq<T>, n: nat): seq<T>
  {
    if |s| <= n then s else s[|s| - n..]
  }

  /** A window holds at most `n` elements, the newest ones, in insertion order. */
  lemma WindowShape<T>(s: seq<T>, n: nat)
    ensures |Window(s, n)| == if |s| <= n then |s| else n
    ensures Window(s, n) == s[|s| - |Window(s, n)|..]
  {
  }

  /** Appending to a full deque evicts the oldest element: windowing after
      every append is the same as windowing the whole history once. */
  lemma WindowAppend<T>(s: seq<T>, x: T, n: nat)
    ensures Window(Window(s, n) + [x], n) == Window(s + [x], n)
  {
    if |s| > n {
      var w := s[|s| - n..];
      if n > 0 {
        assert (w + [x])[1..] == s[|s| - n + 1..] + [x];
        assert (s + [x])[|s| + 1 - n..] == s[|s| - n + 1..] + [x];
      } else {
        assert Window(w + [x], n) == [];
      }
    }
  }

  /** After `n + k` appends the `k` oldest elements are gone and the rest are
      kept in order. */
  lemma Evicted<T>(s: seq<T>, n: nat, k: nat)
    requires |s| == n + k
    ensures Window(s, n) == s[k..]
  {
  }

  /** The newest element of a non-empty window is the one appended last. */
  lemma NewestLast<T>(s: seq<T>, x: T, n: nat)
    requires n > 0
    ensures Window(s + [x], n) != [] && Window(s + [x], n)[|Window(s + [x], n)| - 1] == x
  {
  }

  /** One time-stamped sample, as the eight channels hold it at one index. */
  datatype Entry = Entry(time: real, sample: Sample)

  /** The eight channels have the same length. */
  predicate SameLength(ts: seq<real>, gas: seq<real>, snd: seq<real>, wtr: seq<real>, vib: seq<int>,
                       tmpC: seq<Option<real>>, hum: seq<Option<real>>, mot: seq<int>)
  {
    |gas| == |ts| && |snd| == |ts| && |wtr| == |ts| && |vib| == |ts| &&
    |tmpC| == |ts| && |hum| == |ts| && |mot| == |ts|
  }

  /** The channels read index by index: entry `i` gathers the `i`-th element of
      every channel. */
  function Zip(ts: seq<real>, gas: seq<real>, snd: seq<real>, wtr: seq<real>, vib: seq<int>,
               tmpC: seq<Option<real>>, hum: seq<Option<real>>, mot: seq<int>): (r: seq<Entry>)
    requires SameLength(ts, gas, snd, wtr, vib, tmpC, hum, mot)
    ensures |r| == |ts|
    ensures forall i :: 0 <= i < |r| ==>
              r[i] == Entry(ts[i], Sample(gas[i], snd[i], wtr[i], vib[i], tmpC[i], hum[i], mot[i]))
  {
    seq(|ts|, i requires 0 <= i < |ts| =>
      Entry(ts[i], Sample(gas[i], snd[i], wtr[i], vib[i], tmpC[i], hum[i], mot[i])))
  }

  /** Where the window of a sequence of length `len` starts. */
  function WindowStart(len: nat, n: nat): nat
  {
    if len <= n then 0 else len - n
  }

  /** A window is the suffix from `WindowStart`. */
  lemma WindowSuffix<T>(s: seq<T>, n: nat)
    ensures WindowStart(|s|, n) <= |s| && Window(s, n) == s[WindowStart(|s|, n)..]
  {
    if |s| <= n {
      assert s[0..] == s;
    }
  }

  /** Reading the channels after one append to each gives the old entries
      and the new one. */
  lemma ZipSnoc(ts: seq<real>, gas: seq<real>, snd: seq<real>, wtr: seq<real>, vib: seq<int>,
                tmpC: seq<Option<real>>, hum: seq<Option<real>>, mot: seq<int>, e: Entry)
    requires SameLength(ts, gas, snd, wtr, vib, tmpC, hum, mot)
    ensures
      var s := e.sample;
      Zip(ts + [e.time], gas + [s.gas], snd + [s.sound], wtr + [s.water], vib + [s.vibration],
          tmpC + [s.temp], hum + [s.humidity], mot + [s.motion])
      == Zip(ts, gas, snd, wtr, vib, tmpC, hum, mot) + [e]
  {
    var s := e.sample;
    var after := Zip(ts + [e.time], gas + [s.gas], snd + [s.sound], wtr + [s.water], vib + [s.vibration],
                     tmpC + [s.temp], hum + [s.humidity], mot + [s.motion]);
    var before := Zip(ts, gas, snd, wtr, vib, tmpC, hum, mot) + [e];
    forall i | 0 <= i < |after| ensures after[i] == before[i] {
      if i == |ts| {
        assert after[i] == Entry(e.time, s);
      }
    }
  }

  /** Dropping the same number of oldest elements from every channel drops
      the oldest entries. */
  lemma ZipSuffix(ts: seq<real>, gas: seq<real>, snd: seq<real>, wtr: seq<real>, vib: seq<int>,
                  tmpC: seq<Option<real>>, hum: seq<Option<real>>, mot: seq<int>, k: nat)
    requires SameLength(ts, gas, snd, wtr, vib, tmpC, hum, mot)
    requires k <= |ts|
    ensures Zip(ts[k..], gas[k..], snd[k..], wtr[k..], vib[k..], tmpC[k..], hum[k..], mot[k..])
            == Zip(ts, gas, snd, wtr, vib, tmpC, hum, mot)[k..]
  {
    var after := Zip(ts[k..], gas[k..], snd[k..], wtr[k..], vib[k..], tmpC[k..], hum[k..], mot[k..]);
    var before := Zip(ts, gas, snd, wtr, vib, tmpC, hum, mot)[k..];
    forall i | 0 <= i < |after| ensures after[i] == before[i] {
      assert before[i] == Zip(ts, gas, snd, wtr, vib, tmpC, hum, mot)[k + i];
    }
  }

  /** Appending one entry to every channel of a deque set and reading the
      channels back gives the window of the entries with the new one added:
      the appends keep the channels aligned. */
  lemma ZipAppend(ts: seq<real>, gas: seq<real>, snd: seq<real>, wtr: seq<real>, vib: seq<int>,
                  tmpC: seq<Option<real>>, hum: seq<Option<real>>, mot: seq<int>, e: Entry, n: nat)
    requires SameLength(ts, gas, snd, wtr, vib, tmpC, hum, mot)
    ensures
      var s := e.sample;
      SameLength(Window(ts + [e.time], n), Window(gas + [s.gas], n), Window(snd + [s.sound], n),
                 Window(wtr + [s.water], n), Window(vib + [s.vibration], n), Window(tmpC + [s.temp], n),
                 Window(hum + [s.humidity], n), Window(mot + [s.motion], n))
    ensures
      var s := e.sample;
      Zip(Window(ts + [e.time], n), Window(gas + [s.gas], n), Window(snd + [s.sound], n),
          Window(wtr + [s.water], n), Window(vib + [s.vibration], n), Window(tmpC + [s.temp], n),
          Window(hum + [s.humidity], n), Window(mot + [s.motion], n))
      == Window(Zip(ts, gas, snd, wtr, vib, tmpC, hum, mot) + [e], n)
  {
    var s := e.sample;
    WindowSuffix(ts + [e.time], n);
    WindowSuffix(gas + [s.gas], n);
    WindowSuffix(snd + [s.sound], n);
    WindowSuffix(wtr + [s.water], n);
    WindowSuffix(vib + [s.vibration], n);
    WindowSuffix(tmpC + [s.temp], n);
    WindowSuffix(hum + [s.humidity], n);
    WindowSuffix(mot + [s.motion], n);
    ZipSnoc(ts, gas, snd, wtr, vib, tmpC, hum, mot, e);
    WindowSuffix(Zip(ts, gas, snd, wtr, vib, tmpC, hum, mot) + [e], n);
    ZipSuffix(ts + [e.time], gas + [s.gas], snd + [s.sound], wtr + [s.water], vib + [s.vibration],
              tmpC + [s.temp], hum + [s.humidity], mot + [s.motion], WindowStart(|ts| + 1, n));
  }

  class WindowedBuffer {
    /** `maxlen = WINDOW_SEC` */
    const N: nat
    var ts: seq<real>
    var gas: seq<real>
    var snd: seq<real>
    var wtr: seq<real>
    var tmpC: seq<Option<real>>
    var hum: seq<Option<real>>
    var mot: seq<int>
    var vib: seq<int>
    /** Every entry ever appended, oldest first. */
    ghost var history: seq<Entry>

    /** The eight channels have the same length. */
    predicate Aligned()
      reads this
    {
      SameLength(ts, gas, snd, wtr, vib, tmpC, hum, mot)
    }

    /** The channels, entry by entry. */
    function Snapshot(): seq<Entry>
      reads this
      requires Aligned()
    {
      Zip(ts, gas, snd, wtr, vib, tmpC, hum, mot)
    }

    /** The channels stay index-aligned and hold the last `N` entries of the
        history. */
    ghost predicate Valid()
      reads this
    {
      Aligned() && Snapshot() == Window(history, N)
    }

    constructor (maxlen: nat)
      ensures Valid() && N == maxlen && history == [] && Snapshot() == []
    {
      N := maxlen;
      ts, gas, snd, wtr, tmpC, hum, mot, vib := [], [], [], [], [], [], [], [];
      history := [];
    }

    /** The appends of one accepted reading, one per channel. */
    method Append(t: real, s: Sample)
      requires Valid()
      modifies this
      ensures Valid()
      ensures history == old(history) + [Entry(t, s)]
      ensures Snapshot() == Window(old(Snapshot()) + [Entry(t, s)], N)
    {
      ghost var e := Entry(t, s);
      ghost var before := Snapshot();
      ZipAppend(ts, gas, snd, wtr, vib, tmpC, hum, mot, e, N);
      WindowAppend(history, e, N);
      ts, gas, snd, wtr := Window(ts + [t], N), Window(gas + [s.gas], N), Window(snd + [s.sound], N), Window(wtr + [s.water], N);
      vib, tmpC, hum, mot := Window(vib + [s.vibration], N), Window(tmpC + [s.temp], N), Window(hum + [s.humidity], N), Window(mot + [s.motion], N);
      history := history + [e];
    }
  }

  /** Every channel holds at most `N` samples, whatever was appended. */
  lemma Bounded(b: WindowedBuffer)
    requires b.Valid()
    ensures |b.ts| <= b.N && |b.gas| <= b.N && |b.snd| <= b.N && |b.wtr| <= b.N
    ensures |b.vib| <= b.N && |b.tmpC| <= b.N && |b.hum| <= b.N && |b.mot| <= b.N
  {
    WindowShape(b.history, b.N);
  }
}
