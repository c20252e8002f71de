/** Enrolled devices under externally approved transitions, and the serialized form of the state. */
module DeviceTrust {
  import opened Wrappers
  import opened Sorting

  /** A fingerprint that has passed its format check; the numbers keep the order of the texts. */
  type Fingerprint = nat

  const MAX_DEVICES: nat := 1024
  const MAX_COUNTER: nat := 9_007_199_254_740_991

  datatype Status = Active | Revoked

  datatype DeviceEntry = DeviceEntry(device: Fingerprint, key: Fingerprint, status: Status, epoch: nat,
                                     enrolled: nat, revoked: Option<nat>)

  datatype TrustState = TrustState(installation: Fingerprint, generation: nat, epoch: nat, threshold: nat,
                                   recoveryEpoch: nat, devices: seq<DeviceEntry>)

  // ----- the serialized form -----

  /** A decoded JSON object with the right fields; numbers may be anything, a status any word. */
  datatype StatusWord = ActiveWord | RevokedWord | OtherWord

  datatype EntryValue = EntryValue(device: Fingerprint, key: Fingerprint, status: StatusWord, epoch: int,
                                   enrolled: int, revoked: Option<int>)

  datatype StateValue = StateValue(installation: Fingerprint, generation: int, epoch: int, threshold: int,
                                   recoveryEpoch: int, devices: seq<EntryValue>)

  function EntryDict(d: DeviceEntry): EntryValue {
    EntryValue(d.device, d.key, if d.status == Active then ActiveWord else RevokedWord, d.epoch, d.enrolled,
               if d.revoked.Some? then Some(d.revoked.value) else None)
  }

  function EntryDicts(devices: seq<DeviceEntry>): (v: seq<EntryValue>)
    ensures |v| == |devices| && forall i :: 0 <= i < |v| ==> v[i] == EntryDict(devices[i])
  {
    seq(|devices|, i requires 0 <= i < |devices| => EntryDict(devices[i]))
  }

  /** as_dict */
  function AsDict(s: TrustState): StateValue {
    StateValue(s.installation, s.generation, s.epoch, s.threshold, s.recoveryEpoch, EntryDicts(s.devices))
  }

  predicate Counter(n: int) {
    0 <= n <= MAX_COUNTER
  }

  predicate EntryFits(d: EntryValue, generation: int, epoch: int) {
    && d.status != OtherWord && 1 <= d.epoch <= MAX_COUNTER && Counter(d.enrolled)
    && (d.revoked.Some? ==> Counter(d.revoked.value))
    && d.enrolled <= generation && d.epoch <= epoch
    && (d.status == ActiveWord ==> d.revoked.None? && d.epoch == epoch)
    && (d.status == RevokedWord ==> d.revoked.Some?)
    && (d.revoked.Some? ==> d.enrolled < d.revoked.value <= generation)
  }

  predicate HeaderFits(v: StateValue) {
    && Counter(v.generation) && 1 <= v.epoch <= MAX_COUNTER && 1 <= v.threshold <= MAX_COUNTER
    && Counter(v.recoveryEpoch) && 1 <= |v.devices| <= MAX_DEVICES
  }

  /** What from_value accepts. */
  predicate ValueFits(v: StateValue) {
    && HeaderFits(v) && v.threshold <= |v.devices|
    && (forall i :: 0 <= i < |v.devices| ==> EntryFits(v.devices[i], v.generation, v.epoch))
    && (forall i :: 0 <= i < |v.devices| - 1 ==> v.devices[i].device < v.devices[i + 1].device)
  }

  /** from_value: it accepts exactly the fitting values, and what it builds serializes back. */
  method FromValue(v: StateValue) returns (r: Result<TrustState>)
    ensures r.Success? <==> ValueFits(v)
    ensures r.Success? ==> AsDict(r.value) == v
  {
    if !HeaderFits(v) {
      return Failure(TrustStateInvalid);
    }
    var devices: seq<DeviceEntry>, previous: Option<Fingerprint> := [], None;
    for k := 0 to |v.devices|
      invariant |devices| == k && forall i :: 0 <= i < k ==> EntryDict(devices[i]) == v.devices[i]
      invariant forall i :: 0 <= i < k ==> EntryFits(v.devices[i], v.generation, v.epoch)
      invariant forall i :: 0 <= i < k - 1 ==> v.devices[i].device < v.devices[i + 1].device
      invariant previous == if k == 0 then None else Some(v.devices[k - 1].device)
    {
      var raw := v.devices[k];
      if previous.Some? && raw.device <= previous.value {
        assert !(v.devices[k - 1].device < v.devices[k - 1 + 1].device);
        return Failure(TrustStateInvalid);
      }
      previous := Some(raw.device);
      if !EntryFits(raw, v.generation, v.epoch) {
        return Failure(TrustStateInvalid);
      }
      var status := if raw.status == ActiveWord then Active else Revoked;
      var revoked := if raw.revoked.Some? then Some(raw.revoked.value) else None;
      devices := devices + [DeviceEntry(raw.device, raw.key, status, raw.epoch, raw.enrolled, revoked)];
    }
    if v.threshold > |devices| {
      return Failure(TrustStateInvalid);
    }
    r := Success(TrustState(v.installation, v.generation, v.epoch, v.threshold, v.recoveryEpoch, devices));
    assert AsDict(r.value).devices == v.devices;
  }

  // ----- transitions -----

  /** The previous state's hash is held as that state. */
  datatype Change = Enroll(device: Fingerprint, key: Fingerprint, epoch: int) | Revoke(device: Fingerprint)
    | Rotate(epoch: int) | SetThreshold(threshold: int)

  datatype Transition = Transition(previous: TrustState, next: int, change: Change)

  function Entries(devices: seq<DeviceEntry>): map<Fingerprint, DeviceEntry> {
    if devices == [] then map[]
    else Entries(devices[..|devices| - 1])[devices[|devices| - 1].device := devices[|devices| - 1]]
  }

  function Listed(m: map<Fingerprint, DeviceEntry>): (devices: seq<DeviceEntry>)
    ensures |devices| == |m.Keys|
    ensures forall i :: 0 <= i < |devices| ==> SetToSorted(m.Keys)[i] in m && devices[i] == m[SetToSorted(m.Keys)[i]]
  {
    var order := SetToSorted(m.Keys);
    assert forall i :: 0 <= i < |order| ==> order[i] in order;
    seq(|order|, i requires 0 <= i < |order| => m[order[i]])
  }

  function Rotated(m: map<Fingerprint, DeviceEntry>, epoch: nat): map<Fingerprint, DeviceEntry> {
    map f | f in m :: if m[f].status == Active then m[f].(epoch := epoch) else m[f]
  }

  /** The new entries, or None when the change is refused. */
  function Changed(s: TrustState, m: map<Fingerprint, DeviceEntry>, change: Change): Option<map<Fingerprint,
                   DeviceEntry>> {
    match change
    case Enroll(device, key, epoch) =>
      if device in m || epoch != s.epoch || |m| >= MAX_DEVICES then None
      else Some(m[device := DeviceEntry(device, key, Active, s.epoch, s.generation + 1, None)])
    case Revoke(device) =>
      if device !in m || m[device].status != Active then None
      else Some(m[device := m[device].(status := Revoked, revoked := Some(s.generation + 1))])
    case Rotate(epoch) =>
      if epoch != s.epoch + 1 || epoch > MAX_COUNTER then None else Some(Rotated(m, s.epoch + 1))
    case SetThreshold(threshold) =>
      if !(1 <= threshold <= MAX_COUNTER) || threshold > |m| then None else Some(m)
  }

  /** _apply_transition; approved is the external authority's verdict on the proof. */
  function Apply(s: TrustState, t: Transition, approved: bool): Result<TrustState> {
    if t.previous != s || t.next != s.generation + 1 || t.next > MAX_COUNTER then Failure(TrustTransitionStale)
    else if !approved then Failure(TrustTransitionRefused)
    else
      var changed := Changed(s, Entries(s.devices), t.change);
      if changed.None? then Failure(TrustTransitionInvalid)
      else
        Success(TrustState(s.installation, s.generation + 1, if t.change.Rotate? then s.epoch + 1 else s.epoch,
                           if t.change.SetThreshold? && t.change.threshold >= 0 then t.change.threshold
                           else s.threshold,
                           s.recoveryEpoch, Listed(changed.value)))
  }

  /** new_trust_state */
  function Bootstrap(installation: Fingerprint, device: Fingerprint, key: Fingerprint, epoch: nat): TrustState {
    TrustState(installation, 0, epoch, 1, 0, [DeviceEntry(device, key, Active, epoch, 0, None)])
  }

  /** assert_can_publish */
  predicate CanPublish(s: TrustState, device: Fingerprint, epoch: int) {
    && device in Entries(s.devices) && Entries(s.devices)[device].status == Active
    && epoch == s.epoch && Entries(s.devices)[device].epoch == s.epoch
  }

  // ----- entries as a map and as a sorted list -----

  predicate Sorted(devices: seq<DeviceEntry>) {
    forall i, j :: 0 <= i < j < |devices| ==> devices[i].device < devices[j].device
  }

  ghost predicate HeldBy(devices: seq<DeviceEntry>, f: Fingerprint) {
    exists i :: 0 <= i < |devices| && devices[i].device == f
  }

  lemma {:induction false} EntriesHold(devices: seq<DeviceEntry>)
    requires Sorted(devices)
    ensures forall f :: f in Entries(devices) <==> HeldBy(devices, f)
    ensures forall i :: 0 <= i < |devices| ==>
              devices[i].device in Entries(devices) && Entries(devices)[devices[i].device] == devices[i]
    ensures |Entries(devices)| == |devices|
  {
    if devices != [] {
      var init, last := devices[..|devices| - 1], devices[|devices| - 1];
      EntriesHold(init);
      EntriesMore(devices, Entries(init));
    }
  }

  lemma EntriesMore(devices: seq<DeviceEntry>, m: map<Fingerprint, DeviceEntry>)
    requires Sorted(devices) && devices != [] && |m| == |devices| - 1
    requires forall f :: f in m <==> HeldBy(devices[..|devices| - 1], f)
    requires forall i :: 0 <= i < |devices| - 1 ==> devices[i].device in m && m[devices[i].device] == devices[i]
    ensures var n := m[devices[|devices| - 1].device := devices[|devices| - 1]];
      && (forall f :: f in n <==> HeldBy(devices, f))
      && (forall i :: 0 <= i < |devices| ==> devices[i].device in n && n[devices[i].device] == devices[i])
      && |n| == |devices|
  {
    var init, last := devices[..|devices| - 1], devices[|devices| - 1];
    var n := m[last.device := last];
    forall f
      ensures HeldBy(devices, f) <==> HeldBy(init, f) || f == last.device
    {
      HeldByMore(devices, f);
    }
    LastIsNew(devices);
    hide HeldBy, Sorted;
    OneMoreKey(m, last.device, last);
  }

  lemma OneMoreKey(m: map<Fingerprint, DeviceEntry>, f: Fingerprint, d: DeviceEntry)
    requires f !in m
    ensures |m[f := d]| == |m| + 1
  {
    assert m[f := d].Keys == m.Keys + {f};
  }

  lemma HeldByMore(devices: seq<DeviceEntry>, f: Fingerprint)
    requires devices != []
    ensures HeldBy(devices, f) <==> HeldBy(devices[..|devices| - 1], f) || f == devices[|devices| - 1].device
  {
    var init := devices[..|devices| - 1];
    if HeldBy(devices, f) && f != devices[|devices| - 1].device {
      var i :| 0 <= i < |devices| && devices[i].device == f;
      assert init[i].device == f;
    }
    if HeldBy(init, f) {
      var i :| 0 <= i < |init| && init[i].device == f;
      assert devices[i].device == f;
    }
  }

  lemma LastIsNew(devices: seq<DeviceEntry>)
    requires Sorted(devices) && devices != []
    ensures !HeldBy(devices[..|devices| - 1], devices[|devices| - 1].device)
    ensures forall i :: 0 <= i < |devices| - 1 ==> devices[i].device != devices[|devices| - 1].device
  {
  }

  ghost predicate Keyed(m: map<Fingerprint, DeviceEntry>) {
    forall f :: f in m ==> m[f].device == f
  }

  lemma ListedIsSorted(m: map<Fingerprint, DeviceEntry>)
    requires Keyed(m)
    ensures Sorted(Listed(m)) && |Listed(m)| == |m|
    ensures forall i :: 0 <= i < |Listed(m)| ==> Listed(m)[i].device in m && m[Listed(m)[i].device] == Listed(m)[i]
  {
    SetToSortedStrict(m.Keys);
    assert |m.Keys| == |m|;
  }

  /** Sorting the entries loses none of them. */
  lemma EntriesOfListed(m: map<Fingerprint, DeviceEntry>)
    requires Keyed(m)
    ensures Entries(Listed(m)) == m
  {
    hide Entries, Sorted, HeldBy, Listed, Keyed;
    assert Sorted(Listed(m)) by { ListedIsSorted(m); }
    EntriesHold(Listed(m));
    forall f | f in m
      ensures f in Entries(Listed(m)) && Entries(Listed(m))[f] == m[f]
    {
      var i := PlaceOf(m, f);
      assert Listed(m)[i] == m[f];
    }
    forall f | f in Entries(Listed(m))
      ensures f in m
    {
      HolderOf(m, f);
    }
  }

  lemma PlaceOf(m: map<Fingerprint, DeviceEntry>, f: Fingerprint) returns (i: nat)
    requires Keyed(m) && f in m
    ensures i < |Listed(m)| && Listed(m)[i] == m[f] && Listed(m)[i].device == f
  {
    var order := SetToSorted(m.Keys);
    assert f in order;
    i :| 0 <= i < |order| && order[i] == f;
  }

  lemma HolderOf(m: map<Fingerprint, DeviceEntry>, f: Fingerprint)
    requires Keyed(m) && f in Entries(Listed(m))
    ensures f in m
  {
    ListedIsSorted(m);
    EntriesHold(Listed(m));
    hide Entries, Sorted, Listed;
    assert HeldBy(Listed(m), f);
  }

  // ----- what every transition keeps -----

  ghost predicate EntryValid(d: DeviceEntry, generation: nat, epoch: nat) {
    EntryFits(EntryDict(d), generation, epoch)
  }

  ghost predicate StateValid(s: TrustState) {
    && ValueFits(AsDict(s)) && Sorted(s.devices)
  }

  lemma {:induction false} AscendingEntries(devices: seq<DeviceEntry>, i: nat, j: nat)
    requires forall k :: 0 <= k < |devices| - 1 ==> devices[k].device < devices[k + 1].device
    requires i < j < |devices|
    ensures devices[i].device < devices[j].device
  {
    if j > i + 1 {
      AscendingEntries(devices, i, j - 1);
    }
    assert devices[j - 1].device < devices[j - 1 + 1].device;
  }

  /** The serialized form of a valid state is accepted and builds that very state. */
  lemma RoundTrips(s: TrustState, t: TrustState)
    requires StateValid(s) && AsDict(t) == AsDict(s)
    ensures ValueFits(AsDict(s)) && t == s
  {
    assert forall i :: 0 <= i < |s.devices| ==> EntryDict(t.devices[i]) == EntryDict(s.devices[i]) by {
      assert AsDict(t).devices == AsDict(s).devices;
    }
    assert t.devices == s.devices;
  }

  /** Every entry of a map fits. */
  ghost predicate AllFit(m: map<Fingerprint, DeviceEntry>, generation: nat, epoch: nat) {
    Keyed(m) && forall f :: f in m ==> EntryValid(m[f], generation, epoch)
  }

  lemma StateEntriesFit(s: TrustState)
    requires StateValid(s)
    ensures AllFit(Entries(s.devices), s.generation, s.epoch) && |Entries(s.devices)| == |s.devices|
  {
    EntriesHold(s.devices);
    forall f | f in Entries(s.devices)
      ensures Entries(s.devices)[f].device == f && EntryValid(Entries(s.devices)[f], s.generation, s.epoch)
    {
      assert HeldBy(s.devices, f);
      var i :| 0 <= i < |s.devices| && s.devices[i].device == f;
      assert EntryFits(AsDict(s).devices[i], s.generation, s.epoch);
    }
  }

  lemma FromEntries(s: TrustState, m: map<Fingerprint, DeviceEntry>)
    requires s.devices == Listed(m) && AllFit(m, s.generation, s.epoch)
    requires s.generation <= MAX_COUNTER && 1 <= s.epoch <= MAX_COUNTER && 1 <= s.threshold <= |m| <= MAX_DEVICES
    requires s.recoveryEpoch <= MAX_COUNTER
    ensures StateValid(s)
  {
    ListedIsSorted(m);
    var v := AsDict(s);
    forall i | 0 <= i < |v.devices|
      ensures EntryFits(v.devices[i], v.generation, v.epoch)
    {
      assert EntryValid(s.devices[i], s.generation, s.epoch);
    }
  }

  /** An accepted transition keeps the validator's invariant and advances the generation by one. */
  lemma ApplyKeeps(s: TrustState, t: Transition, approved: bool)
    requires StateValid(s) && Apply(s, t, approved).Success?
    ensures StateValid(Apply(s, t, approved).value)
    ensures Apply(s, t, approved).value.generation == s.generation + 1
    ensures Entries(Apply(s, t, approved).value.devices) == Changed(s, Entries(s.devices), t.change).value
  {
    hide Entries, Listed, StateValid, Changed, AllFit, Keyed;
    StateEntriesFit(s);
    var m := Entries(s.devices);
    var c := Changed(s, m, t.change).value;
    var n := Apply(s, t, approved).value;
    HeaderHolds(s);
    ChangedFits(s, m, t.change);
    assert Keyed(c) by { FitIsKeyed(c, n.generation, n.epoch); }
    EntriesOfListed(c);
    ThresholdHolds(s, m, t.change);
    FromEntries(n, c);
  }

  /** May publish under the current epoch. */
  predicate Publishes(s: TrustState, device: Fingerprint) {
    CanPublish(s, device, s.epoch)
  }

  predicate Enrolled(s: TrustState, device: Fingerprint) {
    device in Entries(s.devices)
  }

  /** The entries of all other devices, the threshold and the epoch are as before. */
  ghost predicate OnlyDevice(s: TrustState, n: TrustState, device: Fingerprint) {
    && n.epoch == s.epoch && n.threshold == s.threshold
    && forall f :: f != device ==>
         (Enrolled(n, f) <==> Enrolled(s, f))
         && (Enrolled(s, f) ==> Entries(n.devices)[f] == Entries(s.devices)[f])
  }

  /** When a change may be made. */
  predicate MayChange(s: TrustState, change: Change) {
    match change
    case Enroll(device, _, epoch) => !Enrolled(s, device) && epoch == s.epoch && |s.devices| < MAX_DEVICES
    case Revoke(device) => Publishes(s, device)
    case Rotate(epoch) => epoch == s.epoch + 1 <= MAX_COUNTER
    case SetThreshold(threshold) => 1 <= threshold <= |s.devices|
  }

  /** What a change does to who may publish. */
  ghost predicate Effect(s: TrustState, n: TrustState, change: Change) {
    match change
    case Enroll(device, key, _) =>
      Publishes(n, device) && Entries(n.devices)[device].key == key && OnlyDevice(s, n, device)
    case Revoke(device) => !Publishes(n, device) && Enrolled(n, device) && OnlyDevice(s, n, device)
    case Rotate(_) =>
      n.epoch == s.epoch + 1 && n.threshold == s.threshold && forall f :: Publishes(n, f) <==> Publishes(s, f)
    case SetThreshold(threshold) =>
      n.threshold == threshold && n.epoch == s.epoch && Entries(n.devices) == Entries(s.devices)
  }

  /** A transition is accepted exactly when it is the approved next one of this state and its change may
      be made; and each change does to the right to publish what it says. */
  lemma ApplyMeans(s: TrustState, t: Transition, approved: bool)
    requires StateValid(s)
    ensures Apply(s, t, approved).Success? <==>
              approved && t.previous == s && t.next == s.generation + 1 <= MAX_COUNTER && MayChange(s, t.change)
    ensures Apply(s, t, approved).Success? ==> Effect(s, Apply(s, t, approved).value, t.change)
  {
    hide Entries, Listed, StateValid, AllFit, Effect, MayChange, Changed;
    MayChangeIs(s, t.change);
    if Apply(s, t, approved).Success? {
      var n := Apply(s, t, approved).value;
      ApplyKeeps(s, t, approved);
      ActiveIsCurrent(s);
      ActiveIsCurrent(n);
      EffectIs(s, n, t.change);
    }
  }

  lemma MayChangeIs(s: TrustState, change: Change)
    requires StateValid(s)
    ensures Changed(s, Entries(s.devices), change).Some? <==> MayChange(s, change)
  {
    hide Entries, Rotated;
    StateEntriesFit(s);
    HeaderHolds(s);
    ActiveIsCurrent(s);
    hide StateValid, AllFit;
  }

  lemma EffectIs(s: TrustState, n: TrustState, change: Change)
    requires Changed(s, Entries(s.devices), change) == Some(Entries(n.devices))
    requires n.epoch == (if change.Rotate? then s.epoch + 1 else s.epoch)
    requires n.threshold == (if change.SetThreshold? && change.threshold >= 0 then change.threshold else s.threshold)
    requires forall f :: Publishes(s, f) <==> Enrolled(s, f) && Entries(s.devices)[f].status == Active
    requires forall f :: Publishes(n, f) <==> Enrolled(n, f) && Entries(n.devices)[f].status == Active
    ensures Effect(s, n, change)
  {
    hide Entries, CanPublish;
  }

  lemma ActiveIsCurrent(s: TrustState)
    requires StateValid(s)
    ensures forall f :: Publishes(s, f) <==> Enrolled(s, f) && Entries(s.devices)[f].status == Active
  {
    StateEntriesFit(s);
    hide Entries;
    forall f | Enrolled(s, f)
      ensures Entries(s.devices)[f].status == Active ==> Entries(s.devices)[f].epoch == s.epoch
    {
      assert EntryValid(Entries(s.devices)[f], s.generation, s.epoch);
    }
  }

  /** A new threshold is at most the number of entries, and an old one stays so. */
  lemma ThresholdHolds(s: TrustState, m: map<Fingerprint, DeviceEntry>, change: Change)
    requires Changed(s, m, change).Some?
    ensures change.SetThreshold? ==> 1 <= change.threshold <= |Changed(s, m, change).value|
    ensures change.Rotate? ==> s.epoch + 1 <= MAX_COUNTER
  {
  }

  lemma FitIsKeyed(m: map<Fingerprint, DeviceEntry>, generation: nat, epoch: nat)
    requires AllFit(m, generation, epoch)
    ensures Keyed(m)
  {
  }

  lemma HeaderHolds(s: TrustState)
    requires StateValid(s)
    ensures 1 <= s.epoch <= MAX_COUNTER && 1 <= s.threshold <= |s.devices| <= MAX_DEVICES
            && s.recoveryEpoch <= MAX_COUNTER
  {
  }

  lemma ChangedFits(s: TrustState, m: map<Fingerprint, DeviceEntry>, change: Change)
    requires AllFit(m, s.generation, s.epoch) && Changed(s, m, change).Some? && s.generation < MAX_COUNTER
             && |m| <= MAX_DEVICES
    requires 1 <= s.epoch <= MAX_COUNTER
    ensures AllFit(Changed(s, m, change).value, s.generation + 1, if change.Rotate? then s.epoch + 1 else s.epoch)
    ensures |m| <= |Changed(s, m, change).value| <= MAX_DEVICES
  {
    hide AllFit, Rotated;
    match change {
      case Enroll(device, key, epoch) =>
        OlderFits(m, s.generation, s.epoch);
        OneMoreFits(m, device, DeviceEntry(device, key, Active, s.epoch, s.generation + 1, None), s.generation + 1,
                    s.epoch);
      case Revoke(device) =>
        OlderFits(m, s.generation, s.epoch);
        RevokedFits(m, device, s.generation, s.epoch);
        OneMoreFits(m, device, m[device].(status := Revoked, revoked := Some(s.generation + 1)), s.generation + 1,
                    s.epoch);
      case Rotate(epoch) =>
        RotatedFits(m, s.generation, s.epoch);
      case SetThreshold(threshold) =>
        OlderFits(m, s.generation, s.epoch);
    }
  }

  lemma OneMoreFits(m: map<Fingerprint, DeviceEntry>, device: Fingerprint, d: DeviceEntry, generation: nat, epoch: nat)
    requires AllFit(m, generation, epoch) && d.device == device && EntryValid(d, generation, epoch)
    ensures AllFit(m[device := d], generation, epoch)
    ensures |m| <= |m[device := d]| <= |m| + 1 && (device in m ==> |m[device := d]| == |m|)
  {
    hide EntryValid;
    assert m[device := d].Keys == m.Keys + {device};
    assert device in m ==> m[device := d].Keys == m.Keys;
  }

  lemma OlderFits(m: map<Fingerprint, DeviceEntry>, generation: nat, epoch: nat)
    requires AllFit(m, generation, epoch)
    ensures AllFit(m, generation + 1, epoch)
  {
  }

  lemma RevokedFits(m: map<Fingerprint, DeviceEntry>, device: Fingerprint, generation: nat, epoch: nat)
    requires AllFit(m, generation, epoch) && device in m && m[device].status == Active && generation < MAX_COUNTER
    ensures m[device].device == device
    ensures EntryValid(m[device].(status := Revoked, revoked := Some(generation + 1)), generation + 1, epoch)
  {
    assert EntryValid(m[device], generation, epoch);
  }

  lemma RotatedFits(m: map<Fingerprint, DeviceEntry>, generation: nat, epoch: nat)
    requires AllFit(m, generation, epoch) && epoch < MAX_COUNTER
    ensures AllFit(Rotated(m, epoch + 1), generation + 1, epoch + 1) && |Rotated(m, epoch + 1)| == |m|
  {
    forall f | f in m
      ensures EntryValid(Rotated(m, epoch + 1)[f], generation + 1, epoch + 1)
    {
      assert EntryValid(m[f], generation, epoch);
    }
    assert Rotated(m, epoch + 1).Keys == m.Keys;
  }

  // ----- runs -----

  ghost predicate Steps(s: TrustState, t: TrustState) {
    exists change, approved :: Apply(s, change, approved) == Success(t)
  }

  ghost predicate TrustRun(run: seq<TrustState>) {
    && |run| > 0
    && (exists i, d, k, e :: 1 <= e <= MAX_COUNTER && run[0] == Bootstrap(i, d, k, e))
    && forall i :: 0 <= i < |run| - 1 ==> Steps(run[i], run[i + 1])
  }

  lemma BootstrapIsValid(i: Fingerprint, d: Fingerprint, k: Fingerprint, e: nat)
    requires 1 <= e <= MAX_COUNTER
    ensures StateValid(Bootstrap(i, d, k, e))
  {
  }

  /** Every state reachable from bootstrap is one the validator accepts, at the generation that
      counts its transitions. */
  lemma {:induction false} RunStaysValid(run: seq<TrustState>, i: nat)
    requires TrustRun(run) && i < |run|
    ensures StateValid(run[i]) && run[i].generation == i
  {
    hide StateValid, Apply, Bootstrap;
    if i == 0 {
      var a, d, k, e :| 1 <= e <= MAX_COUNTER && run[0] == Bootstrap(a, d, k, e);
      BootstrapIsValid(a, d, k, e);
      StartsAtZero(a, d, k, e);
    } else {
      RunStaysValid(run, i - 1);
      assert Steps(run[i - 1], run[i - 1 + 1]);
      var change, approved :| Apply(run[i - 1], change, approved) == Success(run[i]);
      ApplyKeeps(run[i - 1], change, approved);
    }
  }

  lemma StartsAtZero(i: Fingerprint, d: Fingerprint, k: Fingerprint, e: nat)
    ensures Bootstrap(i, d, k, e).generation == 0
  {
  }

  lemma RevokedStays(s: TrustState, t: Transition, approved: bool, device: Fingerprint)
    requires StateValid(s) && Apply(s, t, approved).Success?
    requires device in Entries(s.devices) && Entries(s.devices)[device].status == Revoked
    ensures var n := Apply(s, t, approved).value;
      device in Entries(n.devices) && Entries(n.devices)[device] == Entries(s.devices)[device]
  {
    hide Entries, Listed, StateValid, Changed;
    ApplyKeeps(s, t, approved);
    ChangedKeepsRevoked(s, Entries(s.devices), t.change, device);
  }

  lemma ChangedKeepsRevoked(s: TrustState, m: map<Fingerprint, DeviceEntry>, change: Change, device: Fingerprint)
    requires device in m && m[device].status == Revoked && Changed(s, m, change).Some?
    ensures device in Changed(s, m, change).value && Changed(s, m, change).value[device] == m[device]
  {
  }

  /** Once revoked, a device keeps its entry with its epoch and generation frozen for good, and
      can publish under no epoch. */
  lemma {:induction false} RevokedForever(run: seq<TrustState>, i: nat, j: nat, device: Fingerprint, epoch: int)
    requires TrustRun(run) && i <= j < |run|
    requires device in Entries(run[i].devices) && Entries(run[i].devices)[device].status == Revoked
    ensures device in Entries(run[j].devices) && Entries(run[j].devices)[device] == Entries(run[i].devices)[device]
    ensures !CanPublish(run[j], device, epoch)
  {
    hide Apply, Entries, StateValid;
    if j > i {
      RevokedForever(run, i, j - 1, device, epoch);
      RunStaysValid(run, j - 1);
      assert Steps(run[j - 1], run[j - 1 + 1]);
      var change, approved :| Apply(run[j - 1], change, approved) == Success(run[j]);
      RevokedStays(run[j - 1], change, approved, device);
    }
  }

  /** A device that may publish is active at the current epoch, and every active device may. */
  lemma ActiveMayPublish(run: seq<TrustState>, i: nat, device: Fingerprint)
    requires TrustRun(run) && i < |run| && device in Entries(run[i].devices)
    ensures CanPublish(run[i], device, run[i].epoch) <==> Entries(run[i].devices)[device].status == Active
    ensures forall e :: CanPublish(run[i], device, e) ==> e == run[i].epoch
  {
    RunStaysValid(run, i);
    StateEntriesFit(run[i]);
    hide Entries, StateValid, TrustRun;
    assert EntryValid(Entries(run[i].devices)[device], run[i].generation, run[i].epoch);
  }
}
