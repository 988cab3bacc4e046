/** The checked arithmetic that admits a gateway configuration. */
module Admission {
  import opened Common
  import opened RouteManifest

  datatype GatewayConfig = GatewayConfig(
    maxRequestBytes: nat,
    maxInFlight: nat,
    maxOutcomesInFlight: nat,
    maxActiveBodyBytes: nat,
    wholeBodyCapture: bool,
    captureResponseBytes: nat,
    captureRecordBytes: nat,
    captureQueueBytes: nat,
    totalTimeout: nat,
    route: RouteStartupConfig)

  datatype ConfigError = NotPositive | RecordExceedsQueue | Overflow | ExceedsActiveBodyBytes

  function CaptureBytes(config: GatewayConfig): nat {
    if config.wholeBodyCapture then config.captureRecordBytes else 0
  }

  function ChatLimit(config: GatewayConfig): nat {
    config.maxInFlight * (config.maxRequestBytes + CaptureBytes(config))
  }

  function OutcomeLimit(config: GatewayConfig): nat {
    config.maxOutcomesInFlight * config.captureRecordBytes
  }

  /** The bytes a full gateway may hold, or why the configuration is refused. */
  function AdmittedBytes(config: GatewayConfig): Result<nat, ConfigError> {
    var _ :- Need(config.maxRequestBytes > 0 && config.maxInFlight > 0 && config.maxOutcomesInFlight > 0
                  && config.maxActiveBodyBytes > 0 && config.totalTimeout > 0, NotPositive);
    var _ :- Need(config.captureResponseBytes > 0 && config.captureRecordBytes > 0 && config.captureQueueBytes > 0,
                  NotPositive);
    var _ :- Need(config.captureRecordBytes <= config.captureQueueBytes, RecordExceedsQueue);
    var perRequest :- Required(CheckedAdd(config.maxRequestBytes, CaptureBytes(config)), Overflow);
    var chatBytes :- Required(CheckedMul(perRequest, config.maxInFlight), Overflow);
    var outcomeBytes :- Required(CheckedMul(config.captureRecordBytes, config.maxOutcomesInFlight), Overflow);
    var activeBodyBytes :- Required(CheckedAdd(chatBytes, outcomeBytes), Overflow);
    var _ :- Need(activeBodyBytes <= config.maxActiveBodyBytes, ExceedsActiveBodyBytes);
    Ok(activeBodyBytes)
  }

  /** A configuration is accepted exactly if its limits are positive, a record fits the queue, and what a full
      gateway may hold, told in plain arithmetic, is within the active body bytes and the machine word. */
  lemma AcceptedConfig(config: GatewayConfig)
    ensures AdmittedBytes(config).Ok? <==>
            && config.maxRequestBytes > 0 && config.maxInFlight > 0 && config.maxOutcomesInFlight > 0
            && config.totalTimeout > 0 && config.captureResponseBytes > 0
            && 0 < config.captureRecordBytes <= config.captureQueueBytes
            && ChatLimit(config) + OutcomeLimit(config) <= Min(config.maxActiveBodyBytes, USIZE_MAX)
    ensures AdmittedBytes(config).Ok? ==>
              && AdmittedBytes(config).value == ChatLimit(config) + OutcomeLimit(config)
              && config.maxRequestBytes + CaptureBytes(config) <= USIZE_MAX && CaptureBytes(config) < USIZE_MAX
  {
    var each := config.maxRequestBytes + CaptureBytes(config);
    Commutes(config.maxInFlight, each);
    Commutes(config.maxOutcomesInFlight, config.captureRecordBytes);
    AtLeastOnce(config.maxInFlight, each);
    FourChecks(each, config.maxInFlight, config.captureRecordBytes, config.maxOutcomesInFlight);
  }

  lemma Commutes(a: nat, b: nat)
    ensures a * b == b * a
  {
  }

  lemma AtLeastOnce(count: nat, each: nat)
    ensures count > 0 ==> each <= count * each
  {
  }

  /** The overflow checks pass exactly if the whole sum is a machine word. */
  lemma FourChecks(each: nat, count: nat, record: nat, outcomes: nat)
    requires count > 0 ==> each <= each * count
    ensures (count > 0 && each * count + record * outcomes <= USIZE_MAX) ==>
              && each <= USIZE_MAX && CheckedMul(each, count) == Some(each * count)
              && CheckedMul(record, outcomes) == Some(record * outcomes)
  {
  }
}
