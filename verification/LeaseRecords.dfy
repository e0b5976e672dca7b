/** The persisted lease record, its transition rules and its acceptance checks. */
module LeaseRecords {
  import opened Basics

  const API_VERSION := "coordination.pactdata.io/v1alpha1"
  const KIND := "Lease"

  // Timestamps are instants, so record equality is field-wise comparison.
  datatype Record = Record(
    apiVersion: string,
    kind: string,
    name: string,
    uid: string,
    createdAt: Time,
    clientID: string,
    leaseDurationSeconds: nat,
    acquireTime: Time,
    renewTime: Time,
    epochID: nat,
    sequenceID: nat)

  datatype Config = Config(
    bucket: string,
    objectKey: string,
    clientID: string,
    metadataName: string,
    leaseDuration: Time,
    renewDeadline: Time,
    requestTimeout: Time)

  predicate IsSpace(c: char) {
    c in {' ', '\t', '\n', '\r', '\U{0B}', '\U{0C}', '\U{85}', '\U{A0}', '\U{1680}', '\U{2028}', '\U{2029}',
          '\U{202F}', '\U{205F}', '\U{3000}'}
    || '\U{2000}' <= c <= '\U{200A}'
  }

  // A string that trims to the empty string.
  predicate Blank(s: string) {
    forall k :: 0 <= k < |s| ==> IsSpace(s[k])
  }

  function ValidateConfig(c: Config): (r: Option<Error>)
  {
    if Blank(c.bucket) then Some(InvalidConfig)
    else if c.objectKey == "" then Some(InvalidConfig)
    else if Blank(c.clientID) then Some(InvalidConfig)
    else if c.leaseDuration <= 0 || c.renewDeadline <= 0 || c.requestTimeout <= 0 then Some(InvalidConfig)
    else if c.leaseDuration % SECOND != 0 then Some(InvalidConfig)
    else if c.leaseDuration <= c.renewDeadline then Some(InvalidConfig)
    else if c.requestTimeout >= c.renewDeadline then Some(InvalidConfig)
    else None
  }

  // Accepted by New; a duration is a signed 64-bit number of nanoseconds.
  predicate ValidConfig(c: Config) {
    ValidateConfig(c).None? && c.leaseDuration <= MAX_INT64
  }

  /** Which configurations are accepted: named, in whole seconds, and with room between the three durations. */
  lemma ConfigAccepted(c: Config)
    ensures ValidateConfig(c) == None || ValidateConfig(c) == Some(InvalidConfig)
    ensures ValidateConfig(c) == None <==>
              && (exists k :: 0 <= k < |c.bucket| && !IsSpace(c.bucket[k]))
              && (exists k :: 0 <= k < |c.clientID| && !IsSpace(c.clientID[k]))
              && |c.objectKey| > 0
              && 0 < c.requestTimeout < c.renewDeadline < c.leaseDuration
              && (exists n :: c.leaseDuration == n * SECOND)
  {
    assert c.leaseDuration == (c.leaseDuration / SECOND) * SECOND + c.leaseDuration % SECOND;
  }

  function DurationSeconds(c: Config): nat
    requires c.leaseDuration > 0
  {
    c.leaseDuration / SECOND
  }

  // What another participant waits for on a record, in nanoseconds.
  function Advertised(r: Record): Time {
    r.leaseDurationSeconds * SECOND
  }

  /** The whole-second duration a client advertises loses nothing and exceeds its own renew deadline. */
  lemma AdvertisedExceedsDeadline(c: Config)
    requires ValidConfig(c)
    ensures DurationSeconds(c) * SECOND == c.leaseDuration > c.renewDeadline > c.requestTimeout
    ensures 0 < DurationSeconds(c) <= MAX_INT64 / SECOND
    ensures c.clientID != ""
  {
    assert c.leaseDuration == (c.leaseDuration / SECOND) * SECOND + c.leaseDuration % SECOND;
  }

  predicate ValidRecord(r: Record) {
    && r.apiVersion == API_VERSION
    && r.kind == KIND
    && r.uid != ""
    && r.createdAt != ZERO_TIME
    && 0 < r.leaseDurationSeconds <= MAX_INT64 / SECOND
    && r.acquireTime != ZERO_TIME
    && r.renewTime != ZERO_TIME
    && r.epochID != 0
    && r.sequenceID != 0
  }

  // (epoch, sequence) order
  predicate Before(a: Record, b: Record) {
    a.epochID < b.epochID || (a.epochID == b.epochID && a.sequenceID < b.sequenceID)
  }

  predicate RecordsCompatible(previous: Record, next: Record) {
    && previous.uid == next.uid
    && !Before(next, previous)
    && (next.epochID == previous.epochID && next.sequenceID == previous.sequenceID ==> previous == next)
  }

  function InitialRecord(config: Config, uid: string, wall: Time): Record
    requires config.leaseDuration > 0
  {
    Record(API_VERSION, KIND, config.metadataName, uid, wall,
           config.clientID, DurationSeconds(config), wall, wall, 1, 1)
  }

  function AcquisitionRecord(previous: Record, config: Config, wall: Time): Result<Record, Error>
    requires config.leaseDuration > 0
  {
    if previous.epochID == MAX_UINT64 then Err(CounterOverflow)
    else Ok(previous.(clientID := config.clientID,
                      leaseDurationSeconds := DurationSeconds(config),
                      acquireTime := wall,
                      renewTime := wall,
                      epochID := previous.epochID + 1,
                      sequenceID := 1))
  }

  function RenewalRecord(previous: Record, wall: Time): Result<Record, Error> {
    if previous.sequenceID == MAX_UINT64 then Err(CounterOverflow)
    else Ok(previous.(renewTime := wall, sequenceID := previous.sequenceID + 1))
  }

  function ReleaseRecord(previous: Record, wall: Time): Result<Record, Error> {
    match RenewalRecord(previous, wall)
    case Err(e) => Err(e)
    case Ok(next) => Ok(next.(clientID := ""))
  }

  // The counters are unsigned 64-bit numbers.
  predicate CountersFit(r: Record) {
    r.epochID <= MAX_UINT64 && r.sequenceID <= MAX_UINT64
  }

  /**
   Every transition from an accepted record yields an accepted record, compatible with and after the old one, whose
   counters have not overflowed; the object's identity is permanent, and an epoch keeps its start and its terms.
   */
  lemma TransitionsAccepted(previous: Record, config: Config, wall: Time, next: Record)
    requires ValidRecord(previous) && ValidConfig(config) && wall != ZERO_TIME
    requires
      || AcquisitionRecord(previous, config, wall) == Ok(next)
      || RenewalRecord(previous, wall) == Ok(next)
      || ReleaseRecord(previous, wall) == Ok(next)
    ensures ValidRecord(next) && Before(previous, next) && RecordsCompatible(previous, next)
    ensures CountersFit(previous) ==> CountersFit(next)
    ensures next.uid == previous.uid && next.name == previous.name && next.createdAt == previous.createdAt
    ensures next.renewTime == wall
    ensures if next.epochID == previous.epochID
            then next.acquireTime == previous.acquireTime && next.leaseDurationSeconds == previous.leaseDurationSeconds
            else next.acquireTime == wall
  {
    AdvertisedExceedsDeadline(config);
  }

  lemma InitialAccepted(config: Config, uid: string, wall: Time)
    requires ValidConfig(config) && uid != "" && wall != ZERO_TIME
    ensures ValidRecord(InitialRecord(config, uid, wall))
  {
    AdvertisedExceedsDeadline(config);
  }
}
