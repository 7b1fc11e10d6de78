/**
 * The polling change detector of the file API: a monitor samples a chosen set of a file's attributes
 * once per poll period, compares each sample with the value recorded in the previous cycle and, when
 * any of them changed, notifies every registered listener once with the set of changed attributes.
 *
 * The background thread is an explicit `running` flag, the file's attribute getters are an oracle
 * (one `Sample` per cycle), the wall clock is the `elapsed` input of a cycle, and the moment at which
 * the polling loop sees that it was stopped is the `stopAt` input of a cycle.
 *
 * An attribute set is an int whose bit i stands for attribute i; it is modelled as the set of the
 * attributes whose bit is set (`MaskBits` gives back the int), so `attributes & X != 0` is
 * `attributes * X != {}` and `changed |= X` is `changed := changed + X`.
 */
module FileMonitoring {

  /** The five attributes in the order a cycle checks them: date, size, permissions, is-directory, exists. */
  type AttributeIndex = i: nat | i < 5

  /** A set of attributes: the bits set in an attribute mask. */
  type AttributeSet = set<AttributeIndex>

  const DATE_ATTRIBUTE: AttributeSet := {0}
  const SIZE_ATTRIBUTE: AttributeSet := {1}
  const PERMISSIONS_ATTRIBUTE: AttributeSet := {2}
  const IS_DIRECTORY_ATTRIBUTE: AttributeSet := {3}
  const EXISTS_ATTRIBUTE: AttributeSet := {4}

  /** Used by the constructors that take no attribute set. */
  const DEFAULT_ATTRIBUTES: AttributeSet := DATE_ATTRIBUTE
  /** Milliseconds; used by the constructors that take no poll period. */
  const DEFAULT_POLL_PERIOD: int := 10000

  /** The int value of an attribute set: bit i is set exactly for the attributes i it holds. */
  function MaskBits(m: AttributeSet): (n: nat)
    ensures n < 32
    ensures m == {} <==> n == 0
  {
    (if 0 in m then 1 else 0) + (if 1 in m then 2 else 0) + (if 2 in m then 4 else 0)
    + (if 3 in m then 8 else 0) + (if 4 in m then 16 else 0)
  }

  /**
   * The attribute constants are the ints 1, 2, 4, 8 and 16, and the int of a set tells which attributes
   * it holds: two sets with the same int are the same set.
   */
  lemma MaskBitsIdentifiesAttributes(m1: AttributeSet, m2: AttributeSet)
    ensures MaskBits(DATE_ATTRIBUTE) == 1 && MaskBits(SIZE_ATTRIBUTE) == 2 && MaskBits(PERMISSIONS_ATTRIBUTE) == 4
    ensures MaskBits(IS_DIRECTORY_ATTRIBUTE) == 8 && MaskBits(EXISTS_ATTRIBUTE) == 16
    ensures MaskBits(m1) == MaskBits(m2) ==> m1 == m2
  {
    if MaskBits(m1) == MaskBits(m2) {
      forall i: AttributeIndex ensures i in m1 <==> i in m2 {
        BitOfMask(m1, i);
        BitOfMask(m2, i);
      }
    }
  }

  /** Attribute i is in a set exactly when bit i of its int is set. */
  lemma BitOfMask(m: AttributeSet, i: AttributeIndex)
    ensures i in m <==> (MaskBits(m) / Pow2(i)) % 2 == 1
  {
    if i == 0 {} else if i == 1 {} else if i == 2 {} else if i == 3 {} else {}
  }

  function Pow2(i: AttributeIndex): (p: nat)
  {
    match i
    case 0 => 1
    case 1 => 2
    case 2 => 4
    case 3 => 8
    case 4 => 16
  }

  /** Testing an attribute set against a single attribute's constant tells whether it holds that attribute. */
  lemma MasksTestMembership(attributes: AttributeSet)
    ensures attributes * DATE_ATTRIBUTE != {} <==> 0 in attributes
    ensures attributes * SIZE_ATTRIBUTE != {} <==> 1 in attributes
    ensures attributes * PERMISSIONS_ATTRIBUTE != {} <==> 2 in attributes
    ensures attributes * IS_DIRECTORY_ATTRIBUTE != {} <==> 3 in attributes
    ensures attributes * EXISTS_ATTRIBUTE != {} <==> 4 in attributes
  {
    assert 0 in attributes ==> 0 in attributes * DATE_ATTRIBUTE;
    assert 1 in attributes ==> 1 in attributes * SIZE_ATTRIBUTE;
    assert 2 in attributes ==> 2 in attributes * PERMISSIONS_ATTRIBUTE;
    assert 3 in attributes ==> 3 in attributes * IS_DIRECTORY_ATTRIBUTE;
    assert 4 in attributes ==> 4 in attributes * EXISTS_ATTRIBUTE;
  }

  /**
   * The source's test `attributes & X != 0` against the constant X of attribute k reads bit k of the
   * attribute set's int; the set test `attributes * X != {}` of this model gives the same answer.
   */
  lemma MaskTestReadsBit(attributes: AttributeSet, k: AttributeIndex)
    ensures MaskBits({k}) == Pow2(k)
    ensures attributes * {k} != {} <==> (MaskBits(attributes) / MaskBits({k})) % 2 == 1
  {
    BitOfMask(attributes, k);
    assert k in attributes ==> k in attributes * {k};
  }

  /**
   * Where, within one cycle, the polling loop sees that monitoring was stopped: at the token check
   * made before attribute `stopAt` (1 = size, ..., 4 = exists), or not at all (`NO_STOP`).
   * The date attribute has no check of its own: the loop condition has just been evaluated.
   */
  type CheckIndex = i: nat | 1 <= i <= 5 witness 5
  const NO_STOP: CheckIndex := 5

  /** One reading of the file's attributes (getDate, getSize, getPermissions, isDirectory, exists). */
  datatype Sample = Sample(date: int, size: int, permissions: int, isDirectory: bool, fileExists: bool)

  /** The values recorded for attributes that are not monitored: 0 and false. */
  const BLANK := Sample(0, 0, 0, false, false)

  /** Attribute i of a sample, booleans read as 0 and 1. */
  function Value(i: AttributeIndex, s: Sample): int
  {
    match i
    case 0 => s.date
    case 1 => s.size
    case 2 => s.permissions
    case 3 => if s.isDirectory then 1 else 0
    case 4 => if s.fileExists then 1 else 0
  }

  /** Whether two samples disagree on attribute i. */
  predicate Differs(i: AttributeIndex, a: Sample, b: Sample)
  {
    Value(i, a) != Value(i, b)
  }

  /** `s` with attribute i set to its value in `current`. */
  function Put(i: AttributeIndex, s: Sample, current: Sample): Sample
  {
    match i
    case 0 => s.(date := current.date)
    case 1 => s.(size := current.size)
    case 2 => s.(permissions := current.permissions)
    case 3 => s.(isDirectory := current.isDirectory)
    case 4 => s.(fileExists := current.fileExists)
  }

  lemma PutSets(i: AttributeIndex, s: Sample, current: Sample)
    ensures !Differs(i, Put(i, s, current), current)
  {
  }

  lemma PutKeepsOthers(i: AttributeIndex, s: Sample, current: Sample, j: AttributeIndex)
    requires i != j
    ensures !Differs(j, Put(i, s, current), s)
  {
  }

  /** Unmonitored attributes hold their blank values. */
  ghost predicate KeepsBlank(attributes: AttributeSet, recorded: Sample)
  {
    forall i: AttributeIndex :: i !in attributes ==> !Differs(i, recorded, BLANK)
  }

  /**
   * The values the polling loop records when it starts: the current value of every monitored
   * attribute, 0 or false for the others.
   */
  function Baseline(attributes: AttributeSet, current: Sample): Sample
  {
    Sample(
      if attributes * DATE_ATTRIBUTE != {} then current.date else 0,
      if attributes * SIZE_ATTRIBUTE != {} then current.size else 0,
      if attributes * PERMISSIONS_ATTRIBUTE != {} then current.permissions else 0,
      if attributes * IS_DIRECTORY_ATTRIBUTE != {} then current.isDirectory else false,
      if attributes * EXISTS_ATTRIBUTE != {} then current.fileExists else false)
  }

  /** The baseline holds the current value of every monitored attribute, and blank for the others. */
  lemma BaselineRecordsCurrent(attributes: AttributeSet, current: Sample, i: AttributeIndex)
    ensures i in attributes ==> !Differs(i, Baseline(attributes, current), current)
    ensures i !in attributes ==> !Differs(i, Baseline(attributes, current), BLANK)
  {
    MasksTestMembership(attributes);
    if i == 0 {} else if i == 1 {} else if i == 2 {} else if i == 3 {} else {}
  }

  /** The baseline keeps unmonitored attributes blank. */
  lemma BaselineKeepsBlank(attributes: AttributeSet, current: Sample)
    ensures KeepsBlank(attributes, Baseline(attributes, current))
  {
    forall i: AttributeIndex ensures i !in attributes ==> !Differs(i, Baseline(attributes, current), BLANK) {
      BaselineRecordsCurrent(attributes, current, i);
    }
  }

  /** The set of changed attributes accumulated by one cycle, and the values recorded after it. */
  datatype CycleResult = CycleResult(changed: AttributeSet, recorded: Sample)

  /** Whether a cycle checks attribute i: it is monitored and the stop was not seen before it. */
  predicate Checked(attributes: AttributeSet, stopAt: CheckIndex, i: AttributeIndex)
  {
    i < stopAt && i in attributes
  }

  /**
   * One polling cycle as a function of the values recorded before it, the file's current attribute
   * values and the check at which a stop is seen: the checked attributes whose value differs, and
   * the new value of every checked attribute.
   */
  function Poll(attributes: AttributeSet, recorded: Sample, current: Sample, stopAt: CheckIndex): CycleResult
  {
    CycleResult(
      (set i: AttributeIndex | Checked(attributes, stopAt, i) && Differs(i, recorded, current)),
      Sample(
        if Checked(attributes, stopAt, 0) then current.date else recorded.date,
        if Checked(attributes, stopAt, 1) then current.size else recorded.size,
        if Checked(attributes, stopAt, 2) then current.permissions else recorded.permissions,
        if Checked(attributes, stopAt, 3) then current.isDirectory else recorded.isDirectory,
        if Checked(attributes, stopAt, 4) then current.fileExists else recorded.fileExists))
  }

  /**
   * An attribute is reported changed exactly when it is monitored, was checked before the stop was
   * seen, and its new value differs from the recorded one; so only monitored attributes are reported.
   */
  lemma PollFlags(attributes: AttributeSet, recorded: Sample, current: Sample, stopAt: CheckIndex, i: AttributeIndex)
    ensures i in Poll(attributes, recorded, current, stopAt).changed
        <==> i < stopAt && i in attributes && Differs(i, recorded, current)
    ensures Poll(attributes, recorded, current, stopAt).changed <= attributes
  {
  }

  /**
   * Every checked attribute is recorded at its new value (whether or not it changed); every other
   * attribute keeps its recorded value.
   */
  lemma PollRecords(attributes: AttributeSet, recorded: Sample, current: Sample, stopAt: CheckIndex, i: AttributeIndex)
    ensures i < stopAt && i in attributes ==> !Differs(i, Poll(attributes, recorded, current, stopAt).recorded, current)
    ensures !(i < stopAt && i in attributes) ==> !Differs(i, Poll(attributes, recorded, current, stopAt).recorded, recorded)
  {
    if i == 0 {} else if i == 1 {} else if i == 2 {} else if i == 3 {} else {}
  }

  /** A cycle keeps unmonitored attributes at their blank values. */
  lemma PollKeepsBlank(attributes: AttributeSet, recorded: Sample, current: Sample, stopAt: CheckIndex)
    requires KeepsBlank(attributes, recorded)
    ensures KeepsBlank(attributes, Poll(attributes, recorded, current, stopAt).recorded)
  {
    forall i: AttributeIndex | i !in attributes
      ensures !Differs(i, Poll(attributes, recorded, current, stopAt).recorded, BLANK)
    {
      PollRecords(attributes, recorded, current, stopAt, i);
    }
  }

  /** A cycle reports nothing when no monitored attribute differs from its recorded value. */
  lemma QuietWhenMonitoredUnchanged(attributes: AttributeSet, recorded: Sample, current: Sample, stopAt: CheckIndex)
    requires forall i: AttributeIndex :: i in attributes ==> !Differs(i, recorded, current)
    ensures Poll(attributes, recorded, current, stopAt).changed == {}
  {
    var r := Poll(attributes, recorded, current, stopAt);
    forall i: AttributeIndex ensures i !in r.changed {
      PollFlags(attributes, recorded, current, stopAt, i);
    }
  }

  /**
   * The baseline is taken afresh on every (re)start, so whatever changed while the monitor was idle is
   * never reported: a cycle that finds the file as it was at the restart reports nothing.
   */
  lemma RestartHidesIdleChanges(attributes: AttributeSet, current: Sample, stopAt: CheckIndex)
    ensures Poll(attributes, Baseline(attributes, current), current, stopAt).changed == {}
  {
    forall i: AttributeIndex | i in attributes ensures !Differs(i, Baseline(attributes, current), current) {
      BaselineRecordsCurrent(attributes, current, i);
    }
    QuietWhenMonitoredUnchanged(attributes, Baseline(attributes, current), current, stopAt);
  }

  /** After a completed cycle, a second cycle over the same file state reports nothing. */
  lemma CompletedCycleSettles(attributes: AttributeSet, recorded: Sample, current: Sample, stopAt: CheckIndex)
    ensures Poll(attributes, Poll(attributes, recorded, current, NO_STOP).recorded, current, stopAt).changed == {}
  {
    var settled := Poll(attributes, recorded, current, NO_STOP).recorded;
    forall i: AttributeIndex | i in attributes ensures !Differs(i, settled, current) {
      PollRecords(attributes, recorded, current, NO_STOP, i);
    }
    QuietWhenMonitoredUnchanged(attributes, settled, current, stopAt);
  }

  /** Once the stop is seen, no later attribute is sampled, reported or recorded. */
  lemma StopSkipsLaterAttributes(attributes: AttributeSet, recorded: Sample, current: Sample, stopAt: CheckIndex, i: AttributeIndex)
    requires stopAt <= i
    ensures i !in Poll(attributes, recorded, current, stopAt).changed
    ensures !Differs(i, Poll(attributes, recorded, current, stopAt).recorded, recorded)
  {
    PollFlags(attributes, recorded, current, stopAt, i);
    PollRecords(attributes, recorded, current, stopAt, i);
  }

  /**
   * The changes found before the stop was seen are the same as those of an uninterrupted cycle: the
   * event fired after an interrupted cycle carries them.
   */
  lemma StopKeepsEarlierChanges(attributes: AttributeSet, recorded: Sample, current: Sample, stopAt: CheckIndex, i: AttributeIndex)
    requires i < stopAt
    ensures i in Poll(attributes, recorded, current, stopAt).changed
        <==> i in Poll(attributes, recorded, current, NO_STOP).changed
  {
    PollFlags(attributes, recorded, current, stopAt, i);
    PollFlags(attributes, recorded, current, NO_STOP, i);
  }

  /**
   * The check of attribute i, made only while monitoring is `on`: a monitored attribute whose value
   * differs from the recorded one is recorded anew and added to the changed set.
   */
  function Step(on: bool, attributes: AttributeSet, i: AttributeIndex, sofar: CycleResult, current: Sample): CycleResult
  {
    if on && i in attributes && Differs(i, sofar.recorded, current)
    then CycleResult(sofar.changed + {i}, Put(i, sofar.recorded, current))
    else sofar
  }

  /** The first n checks of a cycle, in order, each made only if the stop has not been seen before it. */
  function ChecksUpTo(attributes: AttributeSet, recorded: Sample, current: Sample, stopAt: CheckIndex, n: nat): CycleResult
    requires n <= 5
  {
    if n == 0 then CycleResult({}, recorded)
    else Step(n - 1 < stopAt, attributes, n - 1, ChecksUpTo(attributes, recorded, current, stopAt, n - 1), current)
  }

  /** The first n checks leave the later attributes at their recorded values. */
  lemma {:induction false} ChecksKeepLater(attributes: AttributeSet, recorded: Sample, current: Sample, stopAt: CheckIndex, n: nat, j: AttributeIndex)
    requires n <= j
    ensures !Differs(j, ChecksUpTo(attributes, recorded, current, stopAt, n).recorded, recorded)
  {
    if n > 0 {
      ChecksKeepLater(attributes, recorded, current, stopAt, n - 1, j);
      PutKeepsOthers(n - 1, ChecksUpTo(attributes, recorded, current, stopAt, n - 1).recorded, current, j);
    }
  }

  /** The first n checks report exactly the attributes before n that the whole cycle reports. */
  lemma {:induction false} ChecksReportEarlier(attributes: AttributeSet, recorded: Sample, current: Sample, stopAt: CheckIndex, n: nat)
    requires n <= 5
    ensures forall j: AttributeIndex ::
      (j in ChecksUpTo(attributes, recorded, current, stopAt, n).changed <==> j < n && j in Poll(attributes, recorded, current, stopAt).changed)
  {
    if n > 0 {
      ChecksReportEarlier(attributes, recorded, current, stopAt, n - 1);
      ChecksKeepLater(attributes, recorded, current, stopAt, n - 1, n - 1);
      PollFlags(attributes, recorded, current, stopAt, n - 1);
    }
  }

  /** The first n checks record each earlier attribute as the whole cycle does. */
  lemma {:induction false} ChecksRecordEarlier(attributes: AttributeSet, recorded: Sample, current: Sample, stopAt: CheckIndex, n: nat, j: AttributeIndex)
    requires j < n <= 5
    ensures !Differs(j, ChecksUpTo(attributes, recorded, current, stopAt, n).recorded, Poll(attributes, recorded, current, stopAt).recorded)
  {
    var prev := ChecksUpTo(attributes, recorded, current, stopAt, n - 1).recorded;
    PollRecords(attributes, recorded, current, stopAt, j);
    if j < n - 1 {
      PutKeepsOthers(n - 1, prev, current, j);
      ChecksRecordEarlier(attributes, recorded, current, stopAt, n - 1, j);
    } else {
      ChecksKeepLater(attributes, recorded, current, stopAt, n - 1, j);
      PutSets(j, prev, current);
    }
  }

  /** The five checks made in order, each on the values left by the previous ones, amount to one poll. */
  lemma PollIsChecksInOrder(attributes: AttributeSet, recorded: Sample, current: Sample, stopAt: CheckIndex)
    ensures ChecksUpTo(attributes, recorded, current, stopAt, 5) == Poll(attributes, recorded, current, stopAt)
  {
    var c, r := ChecksUpTo(attributes, recorded, current, stopAt, 5), Poll(attributes, recorded, current, stopAt);
    ChecksReportEarlier(attributes, recorded, current, stopAt, 5);
    assert c.changed == r.changed;
    ChecksRecordEarlier(attributes, recorded, current, stopAt, 5, 0);
    ChecksRecordEarlier(attributes, recorded, current, stopAt, 5, 1);
    ChecksRecordEarlier(attributes, recorded, current, stopAt, 5, 2);
    ChecksRecordEarlier(attributes, recorded, current, stopAt, 5, 3);
    ChecksRecordEarlier(attributes, recorded, current, stopAt, 5, 4);
  }

  /** The recorded values after uninterrupted cycles over the given samples, in order. */
  function Replay(attributes: AttributeSet, recorded: Sample, samples: seq<Sample>): Sample
    decreases |samples|
  {
    if samples == [] then recorded
    else Replay(attributes, Poll(attributes, recorded, samples[0], NO_STOP).recorded, samples[1..])
  }

  /** The changed sets of the events fired by uninterrupted cycles over the given samples, in order. */
  function Events(attributes: AttributeSet, recorded: Sample, samples: seq<Sample>): seq<AttributeSet>
    decreases |samples|
  {
    if samples == [] then []
    else
      var r := Poll(attributes, recorded, samples[0], NO_STOP);
      (if r.changed != {} then [r.changed] else []) + Events(attributes, r.recorded, samples[1..])
  }

  /**
   * After any number of cycles, each monitored attribute holds its value in the latest sample, and
   * each unmonitored one the value it had before the first cycle.
   */
  lemma {:induction false} ReplayTracksLatestSample(attributes: AttributeSet, recorded: Sample, samples: seq<Sample>, i: AttributeIndex)
    requires samples != []
    ensures i in attributes ==> !Differs(i, Replay(attributes, recorded, samples), samples[|samples| - 1])
    ensures i !in attributes ==> !Differs(i, Replay(attributes, recorded, samples), recorded)
    decreases |samples|
  {
    var next := Poll(attributes, recorded, samples[0], NO_STOP).recorded;
    PollRecords(attributes, recorded, samples[0], NO_STOP, i);
    if |samples| > 1 {
      ReplayTracksLatestSample(attributes, next, samples[1..], i);
    }
  }

  /**
   * Cycles fire at most one event each, and every event carries a non-empty set of monitored
   * attributes only.
   */
  lemma {:induction false} EventsAreMonitoredChanges(attributes: AttributeSet, recorded: Sample, samples: seq<Sample>)
    ensures |Events(attributes, recorded, samples)| <= |samples|
    ensures forall e | e in Events(attributes, recorded, samples) :: e != {} && e <= attributes
    decreases |samples|
  {
    if samples != [] {
      var r := Poll(attributes, recorded, samples[0], NO_STOP);
      PollFlags(attributes, recorded, samples[0], NO_STOP, 0);
      EventsAreMonitoredChanges(attributes, r.recorded, samples[1..]);
    }
  }

  /**
   * The time the loop sleeps after a cycle: the poll period less the time the cycle took, but never
   * negative; no longer than the poll period when the clock did not go backwards.
   */
  function SleepDuration(pollPeriod: int, elapsed: int): (d: int)
    ensures d >= 0 && d >= pollPeriod - elapsed
    ensures d == 0 || d == pollPeriod - elapsed
    ensures 0 <= elapsed && 0 <= pollPeriod ==> d <= pollPeriod
  {
    if pollPeriod - elapsed > 0 then pollPeriod - elapsed else 0
  }

  /** One call of a listener's fileChanged: who was called, with which file and which mask. */
  datatype Notification<F, L> = Notification(listener: L, file: F, changedAttributes: AttributeSet)

  function Recipients<F, L>(batch: seq<Notification<F, L>>): (r: seq<L>)
    ensures |r| == |batch|
    ensures forall k :: 0 <= k < |batch| ==> r[k] == batch[k].listener
  {
    seq(|batch|, k requires 0 <= k < |batch| => batch[k].listener)
  }

  /** `batch` is one event: every listener of `listeners` called exactly once, with `file` and `changed`. */
  ghost predicate OneEvent<F, L>(batch: seq<Notification<F, L>>, file: F, changed: AttributeSet, listeners: set<L>)
  {
    && (forall k :: 0 <= k < |batch| ==> batch[k].file == file && batch[k].changedAttributes == changed)
    && multiset(Recipients(batch)) == multiset(listeners)
  }

  /** `after` is `before` followed by one event. */
  ghost predicate Appended<F, L>(before: seq<Notification<F, L>>, after: seq<Notification<F, L>>,
                                     file: F, changed: AttributeSet, listeners: set<L>)
  {
    |before| <= |after| && after[..|before|] == before && OneEvent(after[|before|..], file, changed, listeners)
  }

  /**
   * A monitor of one file. `F` identifies the monitored file, `L` a listener. The fields below
   * `listeners` belong to the polling loop: the values recorded by the previous cycle, and every
   * listener call made so far.
   */
  class FileMonitor<F, L(==)> {
    const file: F
    const attributes: AttributeSet
    const pollPeriod: int

    /** Whether a monitoring thread is set. */
    var running: bool
    var listeners: set<L>
    var last: Sample
    var notifications: seq<Notification<F, L>>

    ghost predicate Valid()
      reads this
    {
      KeepsBlank(attributes, last)
    }

    constructor (file: F, attributes: AttributeSet, pollPeriod: int)
      ensures this.file == file && this.attributes == attributes && this.pollPeriod == pollPeriod
      ensures Valid() && !running && listeners == {} && notifications == []
    {
      this.file := file;
      this.attributes := attributes;
      this.pollPeriod := pollPeriod;
      running := false;
      listeners := {};
      last := BLANK;
      notifications := [];
    }

    constructor WithDefaults(file: F)
      ensures this.file == file && attributes == DEFAULT_ATTRIBUTES && pollPeriod == DEFAULT_POLL_PERIOD
      ensures Valid() && !running && listeners == {} && notifications == []
    {
      this.file := file;
      attributes := DEFAULT_ATTRIBUTES;
      pollPeriod := DEFAULT_POLL_PERIOD;
      running := false;
      listeners := {};
      last := BLANK;
      notifications := [];
    }

    constructor WithAttributes(file: F, attributes: AttributeSet)
      ensures this.file == file && this.attributes == attributes && pollPeriod == DEFAULT_POLL_PERIOD
      ensures Valid() && !running && listeners == {} && notifications == []
    {
      this.file := file;
      this.attributes := attributes;
      pollPeriod := DEFAULT_POLL_PERIOD;
      running := false;
      listeners := {};
      last := BLANK;
      notifications := [];
    }

    constructor WithPollPeriod(file: F, pollPeriod: int)
      ensures this.file == file && attributes == DEFAULT_ATTRIBUTES && this.pollPeriod == pollPeriod
      ensures Valid() && !running && listeners == {} && notifications == []
    {
      this.file := file;
      attributes := DEFAULT_ATTRIBUTES;
      this.pollPeriod := pollPeriod;
      running := false;
      listeners := {};
      last := BLANK;
      notifications := [];
    }

    /** Registers a listener; registering it again changes nothing. */
    method AddFileChangeListener(listener: L)
      modifies this`listeners
      ensures listeners == old(listeners) + {listener}
    {
      listeners := listeners + {listener};
    }

    /** Unregisters a listener; the others stay registered. */
    method RemoveFileChangeListener(listener: L)
      modifies this`listeners
      ensures listeners == old(listeners) - {listener}
    {
      listeners := listeners - {listener};
    }

    /**
     * Starts the polling loop unless it is already running; a fresh loop begins by recording the
     * current values of the monitored attributes (`current` is what the file reports at that moment).
     */
    method StartMonitoring(current: Sample)
      requires Valid()
      modifies this`running, this`last
      ensures Valid() && running
      ensures old(running) ==> last == old(last)
      ensures !old(running) ==> last == Baseline(attributes, current)
    {
      if !running {
        BaselineKeepsBlank(attributes, current);
        running := true;
        last := Baseline(attributes, current);
      }
    }

    /** Clears the monitoring thread; does nothing if none is set. */
    method StopMonitoring()
      modifies this`running
      ensures !running
    {
      running := false;
    }

    /** Whether a start has not been followed by a stop. */
    function IsMonitoring(): (r: bool)
      reads this
      ensures r <==> running
    {
      running
    }

    /** Calls every registered listener once with the monitored file and the changed mask. */
    method FireFileChangeEvent(changed: AttributeSet)
      modifies this`notifications
      ensures Appended(old(notifications), notifications, file, changed, listeners)
    {
      var pending := listeners;
      ghost var batch: seq<Notification<F, L>> := [];
      while pending != {}
        invariant pending <= listeners
        invariant notifications == old(notifications) + batch
        invariant forall k :: 0 <= k < |batch| ==> batch[k].file == file && batch[k].changedAttributes == changed
        invariant multiset(Recipients(batch)) + multiset(pending) == multiset(listeners)
        decreases pending
      {
        var listener :| listener in pending;
        var n := Notification(listener, file, changed);
        assert Recipients(batch + [n]) == Recipients(batch) + [listener];
        assert multiset(pending) == multiset(pending - {listener}) + multiset{listener};
        notifications := notifications + [n];
        batch := batch + [n];
        pending := pending - {listener};
      }
      assert notifications[|old(notifications)|..] == batch;
    }

    /*
     * The five checks of a cycle, in the order the loop makes them. All but the first are made only
     * while monitoring is on (the first follows the loop condition directly); each is one `Step`.
     */

    /** Records a changed date and adds it to the changed set. */
    method CheckDate(current: Sample, changed: AttributeSet) returns (changed': AttributeSet)
      modifies this`last
      ensures CycleResult(changed', last) == Step(true, attributes, 0, CycleResult(changed, old(last)), current)
    {
      MasksTestMembership(attributes);
      changed' := changed;
      if attributes * DATE_ATTRIBUTE != {} {
        if current.date != last.date {
          last := last.(date := current.date);
          changed' := changed' + DATE_ATTRIBUTE;
        }
      }
    }

    /** Records a changed size and adds it to the changed set. */
    method CheckSize(current: Sample, changed: AttributeSet) returns (changed': AttributeSet)
      modifies this`last
      ensures CycleResult(changed', last) == Step(running, attributes, 1, CycleResult(changed, old(last)), current)
    {
      MasksTestMembership(attributes);
      changed' := changed;
      if running && attributes * SIZE_ATTRIBUTE != {} {
        if current.size != last.size {
          last := last.(size := current.size);
          changed' := changed' + SIZE_ATTRIBUTE;
        }
      }
    }

    /** Records a changed permissions and adds it to the changed set. */
    method CheckPermissions(current: Sample, changed: AttributeSet) returns (changed': AttributeSet)
      modifies this`last
      ensures CycleResult(changed', last) == Step(running, attributes, 2, CycleResult(changed, old(last)), current)
    {
      MasksTestMembership(attributes);
      changed' := changed;
      if running && attributes * PERMISSIONS_ATTRIBUTE != {} {
        if current.permissions != last.permissions {
          last := last.(permissions := current.permissions);
          changed' := changed' + PERMISSIONS_ATTRIBUTE;
        }
      }
    }

    /** Records a changed is-directory flag and adds it to the changed set. */
    method CheckIsDirectory(current: Sample, changed: AttributeSet) returns (changed': AttributeSet)
      modifies this`last
      ensures CycleResult(changed', last) == Step(running, attributes, 3, CycleResult(changed, old(last)), current)
    {
      MasksTestMembership(attributes);
      changed' := changed;
      if running && attributes * IS_DIRECTORY_ATTRIBUTE != {} {
        if current.isDirectory != last.isDirectory {
          last := last.(isDirectory := current.isDirectory);
          changed' := changed' + IS_DIRECTORY_ATTRIBUTE;
        }
      }
    }

    /** Records a changed exists flag and adds it to the changed set. */
    method CheckExists(current: Sample, changed: AttributeSet) returns (changed': AttributeSet)
      modifies this`last
      ensures CycleResult(changed', last) == Step(running, attributes, 4, CycleResult(changed, old(last)), current)
    {
      MasksTestMembership(attributes);
      changed' := changed;
      if running && attributes * EXISTS_ATTRIBUTE != {} {
        if current.fileExists != last.fileExists {
          last := last.(fileExists := current.fileExists);
          changed' := changed' + EXISTS_ATTRIBUTE;
        }
      }
    }

    /**
     * One iteration of the polling loop, which runs while monitoring is on. `current` is what the
     * file's getters return during this cycle, `stopAt` the check at which the loop sees that it was
     * stopped, `elapsed` the milliseconds the cycle took. Returns the changed mask and the sleep time.
     */
    method Cycle(current: Sample, stopAt: CheckIndex, elapsed: int) returns (changed: AttributeSet, sleep: int)
      requires Valid() && running
      modifies this`last, this`notifications, this`running
      ensures Valid()
      ensures changed == Poll(attributes, old(last), current, stopAt).changed
      ensures last == Poll(attributes, old(last), current, stopAt).recorded
      ensures running <==> stopAt == NO_STOP
      ensures changed == {} ==> notifications == old(notifications)
      ensures changed != {} ==> Appended(old(notifications), notifications, file, changed, listeners)
      ensures sleep == SleepDuration(pollPeriod, elapsed)
    {
      PollKeepsBlank(attributes, last, current, stopAt);
      PollIsChecksInOrder(attributes, last, current, stopAt);
      ghost var before := last;
      changed := {};
      changed := CheckDate(current, changed);
      assert CycleResult(changed, last) == ChecksUpTo(attributes, before, current, stopAt, 1);
      if stopAt == 1 { running := false; }
      changed := CheckSize(current, changed);
      assert CycleResult(changed, last) == ChecksUpTo(attributes, before, current, stopAt, 2);
      if stopAt == 2 { running := false; }
      changed := CheckPermissions(current, changed);
      assert CycleResult(changed, last) == ChecksUpTo(attributes, before, current, stopAt, 3);
      if stopAt == 3 { running := false; }
      changed := CheckIsDirectory(current, changed);
      assert CycleResult(changed, last) == ChecksUpTo(attributes, before, current, stopAt, 4);
      if stopAt == 4 { running := false; }
      changed := CheckExists(current, changed);
      assert CycleResult(changed, last) == ChecksUpTo(attributes, before, current, stopAt, 5);

      if changed != {} {
        FireFileChangeEvent(changed);
      }

      sleep := SleepDuration(pollPeriod, elapsed);
    }
  }

  /**
   * A file of size 100 watched for size only, polled every second, with one listener: the first
   * cycle reports nothing, the cycle after the file grows to 150 notifies the listener once with the
   * size bit, and the cycle after that reports nothing.
   */
  method GrowingFileScenario(listener: int)
  {
    var m := new FileMonitor<string, int>("/tmp/log", SIZE_ATTRIBUTE, 1000);
    m.AddFileChangeListener(listener);
    var before := Sample(5, 100, 0, false, true);
    m.StartMonitoring(before);

    var changed, sleep := m.Cycle(before, NO_STOP, 20);
    assert changed == {} && m.notifications == [] && sleep == 980;

    var grown := Sample(6, 150, 0, false, true);
    changed, sleep := m.Cycle(grown, NO_STOP, 1500);
    assert changed == SIZE_ATTRIBUTE && m.last.size == 150 && sleep == 0;
    assert multiset(Recipients(m.notifications)) == multiset{listener};
    assert |m.notifications| == 1 && m.notifications[0] == Notification(listener, "/tmp/log", SIZE_ATTRIBUTE);

    changed, sleep := m.Cycle(grown, NO_STOP, 10);
    assert changed == {} && |m.notifications| == 1;
  }
}
