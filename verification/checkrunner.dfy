/** The top-level flow of main (main.go): build the client settings, create
    the client, parse the job file, purge and re-register the job unless only
    checking, then poll the tracked job. Every external step is an abstract
    outcome supplied by an Environment; the run records the calls made in
    order and the one report that ends the process. */
module CheckRunner {
  import opened Wrappers
  import opened Icinga
  import opened Poller

  /** The command-line options, as parsed. */
  datatype Config = Config(
    addr: string,
    tlsCert: string,
    tlsKey: string,
    tlsCaCert: string,
    tlsInsecure: bool,
    timeout: int,
    jobFilePath: string,
    checkOnly: string)

  /** TLS material attached to the client settings. */
  datatype TlsConfig = TlsConfig(caCert: string, clientCert: string, clientKey: string, insecure: bool)

  /** The client settings main hands to the client constructor. `tls` is
      None when the library's default TLS settings are left in place. */
  datatype ClientSettings = ClientSettings(address: string, tls: Option<TlsConfig>)

  /** The settings built by createNomadClient: the configured address, and a
      TLS configuration exactly when both a client certificate and a key are
      given, carrying the configured values unchanged. */
  function CreateClientSettings(config: Config): (s: ClientSettings)
    ensures s.address == config.addr
    ensures s.tls.Some? <==> config.tlsCert != "" && config.tlsKey != ""
    ensures s.tls.Some? ==>
      s.tls.value == TlsConfig(config.tlsCaCert, config.tlsCert, config.tlsKey, config.tlsInsecure)
  {
    var tls :=
      if config.tlsCert != "" && config.tlsKey != "" then
        Some(TlsConfig(config.tlsCaCert, config.tlsCert, config.tlsKey, config.tlsInsecure))
      else None;
    ClientSettings(config.addr, tls)
  }

  /** Without both a client certificate and a key, the CA certificate and
      the insecure flag are not passed on: the settings do not depend on them. */
  lemma CaAndInsecureNeedCertAndKey(config: Config, caCert: string, insecure: bool)
    requires config.tlsCert == "" || config.tlsKey == ""
    ensures CreateClientSettings(config)
         == CreateClientSettings(config.(tlsCaCert := caCert, tlsInsecure := insecure))
    ensures CreateClientSettings(config).tls.None?
  {
  }

  /** A parsed job specification; only its identifier is read. */
  datatype Job = Job(id: string)

  /** The outcomes of the steps main does not compute itself. */
  datatype Environment = Environment(
    clientError: Option<string>,        // client construction
    parsedJob: Result<Job, string>,     // resolving, opening and parsing the job file
    deregisterError: Option<string>,    // purging the job
    registerError: Option<string>,      // registering the job
    observations: seq<Observation>)     // the poll loop's iterations

  /** The external steps main takes, in the order it takes them. */
  datatype Call =
    | NewClient(settings: ClientSettings)
    | ParseJob(path: string)
    | Deregister(jobId: string, purge: bool)
    | Register(jobId: string)
    | CheckStatus(jobId: string, timeout: int)

  /** A run: the calls made and the report that ended it, if it has ended. */
  datatype Run = Run(calls: seq<Call>, report: Option<Report>)

  /** The job whose allocations are polled: the parsed job's own identifier
      when submitting, the check-only identifier otherwise. */
  function TrackedJobId(config: Config, job: Job): (id: string)
    ensures config.checkOnly == "" ==> id == job.id
    ensures config.checkOnly != "" ==> id == config.checkOnly
  {
    if config.checkOnly == "" then job.id else config.checkOnly
  }

  /** The part of a run after the job has been parsed: submission unless in
      check-only mode, then polling. */
  function SubmitAndCheck(config: Config, env: Environment, job: Job): (run: Run)
    ensures config.checkOnly != "" ==>
      run == Run([CheckStatus(config.checkOnly, config.timeout)],
                 Poll(env.observations, config.timeout, config.checkOnly))
    ensures config.checkOnly == "" && env.registerError.Some? ==>
      run == Run([Deregister(job.id, true), Register(job.id)],
                 Some(ReportStatus(CRITICAL, "Error registering job: " + env.registerError.value)))
    ensures config.checkOnly == "" && env.registerError.None? ==>
      run == Run([Deregister(job.id, true), Register(job.id), CheckStatus(job.id, config.timeout)],
                 Poll(env.observations, config.timeout, job.id))
  {
    if config.checkOnly == "" then
      var submitted := [Deregister(job.id, true), Register(job.id)];
      match env.registerError
      case Some(e) => Run(submitted, Some(ReportStatus(CRITICAL, "Error registering job: " + e)))
      case None =>
        var id := TrackedJobId(config, job);
        Run(submitted + [CheckStatus(id, config.timeout)], Poll(env.observations, config.timeout, id))
    else
      var id := TrackedJobId(config, job);
      Run([CheckStatus(id, config.timeout)], Poll(env.observations, config.timeout, id))
  }

  /** The whole check. Client and parse failures end it with CRITICAL before
      anything is submitted or polled; the poll loop never returns, so the
      UNKNOWN fallback that follows it is never reported. */
  function Main(config: Config, env: Environment): (run: Run)
    ensures |run.calls| >= 1 && run.calls[0] == NewClient(CreateClientSettings(config))
    ensures env.clientError.Some? ==>
      run.report == Some(ReportStatus(CRITICAL, "Error creating Nomad client: " + env.clientError.value))
      && |run.calls| == 1
    ensures env.clientError.None? && env.parsedJob.Failure? ==>
      run.report == Some(ReportStatus(CRITICAL, "Error parsing job specification: " + env.parsedJob.error))
      && run.calls == [NewClient(CreateClientSettings(config)), ParseJob(config.jobFilePath)]
    ensures env.clientError.None? && env.parsedJob.Success? ==>
      var rest := SubmitAndCheck(config, env, env.parsedJob.value);
      run == Run([NewClient(CreateClientSettings(config)), ParseJob(config.jobFilePath)] + rest.calls, rest.report)
    ensures (env.clientError.None? && env.parsedJob.Success?
             && (config.checkOnly == "" ==> env.registerError.None?)) ==>
      run.report == Poll(env.observations, config.timeout, TrackedJobId(config, env.parsedJob.value))
    ensures run.report.Some? ==> run.report.value.exitCode in {OK, WARNING, CRITICAL}
  {
    var created := NewClient(CreateClientSettings(config));
    match env.clientError
    case Some(e) => Run([created], Some(ReportStatus(CRITICAL, "Error creating Nomad client: " + e)))
    case None =>
      var parsed := [created, ParseJob(config.jobFilePath)];
      match env.parsedJob
      case Failure(e) => Run(parsed, Some(ReportStatus(CRITICAL, "Error parsing job specification: " + e)))
      case Success(job) =>
        var rest := SubmitAndCheck(config, env, job);
        Run(parsed + rest.calls, rest.report)
  }

  /** Whether a run submitted the job: purged or registered it. */
  predicate Submits(run: Run)
  {
    exists i :: 0 <= i < |run.calls| && (run.calls[i].Deregister? || run.calls[i].Register?)
  }

  /** Whether a run started polling, and for which job. */
  predicate Polls(run: Run, jobId: string)
  {
    exists i :: 0 <= i < |run.calls| && run.calls[i].CheckStatus? && run.calls[i].jobId == jobId
  }

  /** The job is purged and registered exactly when not in check-only mode
      and both the client and the job file were obtained. */
  lemma SubmitsOnlyWithoutCheckOnly(config: Config, env: Environment)
    ensures Submits(Main(config, env)) <==>
      config.checkOnly == "" && env.clientError.None? && env.parsedJob.Success?
  {
    var run := Main(config, env);
    if config.checkOnly == "" && env.clientError.None? && env.parsedJob.Success? {
      assert run.calls[2].Deregister?;
    }
  }

  /** Polling starts, for the tracked job, exactly when every earlier step
      succeeded; a failed step ends the run with CRITICAL before it. */
  lemma PollsOnlyAfterEarlierSteps(config: Config, env: Environment, jobId: string)
    ensures Polls(Main(config, env), jobId) <==>
      env.clientError.None? && env.parsedJob.Success?
      && (config.checkOnly == "" ==> env.registerError.None?)
      && jobId == TrackedJobId(config, env.parsedJob.value)
    ensures env.clientError.Some? || env.parsedJob.Failure? || (config.checkOnly == "" && env.registerError.Some?) ==>
      Main(config, env).report.Some? && Main(config, env).report.value.exitCode == CRITICAL
  {
    var run := Main(config, env);
    if env.clientError.None? && env.parsedJob.Success? {
      var job := env.parsedJob.value;
      if config.checkOnly == "" && env.registerError.None? {
        assert run.calls[4] == CheckStatus(TrackedJobId(config, job), config.timeout);
      } else if config.checkOnly != "" {
        assert run.calls[2] == CheckStatus(TrackedJobId(config, job), config.timeout);
      }
    }
  }

  /** The outcome of the purge is ignored: nothing in a run depends on it. */
  lemma DeregisterOutcomeIgnored(config: Config, env: Environment, outcome: Option<string>)
    ensures Main(config, env) == Main(config, env.(deregisterError := outcome))
  {
  }

  /** Checking an already registered job by its identifier reaches the same
      verdict as submitting that job and checking it, given the same
      allocation states over time. */
  lemma CheckOnlyAgreesWithSubmission(config: Config, env: Environment, job: Job)
    requires env.clientError.None? && env.parsedJob == Success(job) && env.registerError.None?
    ensures Main(config.(checkOnly := ""), env).report == Main(config.(checkOnly := job.id), env).report
  {
  }
}
