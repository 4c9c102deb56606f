/** The receive adapter process: pkg/adapter/adapter.go and cmd/receive_adapter/main.go. */
module Adapter {
  import opened Basics

  /** The fields that main fills in. */
  datatype Config = Config(
    kclIAMRoleARN: string,
    credsFile: string,
    streamName: string,
    region: string,
    sinkURI: string,
    consumerName: string)

  // ----- cmd/receive_adapter/main.go -----

  /** The process environment. */
  type Environment = map<string, string>

  const ENV_CREDS_FILE := "AWS_APPLICATION_CREDENTIALS"
  const ENV_KCL_IAM_ROLE_ARN := "KCL_IAM_ROLE_ARN"
  const ENV_STREAM_NAME := "STREAM_NAME"
  const ENV_REGION := "REGION"
  const ENV_SINK_URI := "SINK_URI"
  const ENV_CONSUMER_NAME := "CONSUMER_NAME"

  /** Fails with the key: the process exits when a required variable is not defined. An empty value is defined. */
  function GetRequiredEnv(env: Environment, key: string): Result<string, string>
  {
    if key in env then Ok(env[key]) else Err(key)
  }

  function GetOptionalEnv(env: Environment, key: string): string
  {
    if key in env then env[key] else ""
  }

  /** The adapter that main builds, or the first required variable that is missing. */
  function Construct(env: Environment): (r: Result<Config, string>)
    ensures r.Ok? <==> {ENV_STREAM_NAME, ENV_REGION, ENV_SINK_URI, ENV_CONSUMER_NAME} <= env.Keys
    ensures r.Err? ==> r.error !in env
    ensures r.Ok? ==> r.value.streamName == env["STREAM_NAME"] && r.value.region == env["REGION"]
    ensures r.Ok? ==> r.value.sinkURI == env["SINK_URI"] && r.value.consumerName == env["CONSUMER_NAME"]
    ensures r.Ok? ==> r.value.kclIAMRoleARN == if "KCL_IAM_ROLE_ARN" in env then env["KCL_IAM_ROLE_ARN"] else ""
    ensures r.Ok? ==> r.value.credsFile == if "AWS_APPLICATION_CREDENTIALS" in env then env["AWS_APPLICATION_CREDENTIALS"] else ""
  {
    match GetRequiredEnv(env, ENV_STREAM_NAME)
    case Err(e) => Err(e)
    case Ok(streamName) =>
      match GetRequiredEnv(env, ENV_REGION)
      case Err(e) => Err(e)
      case Ok(region) =>
        match GetRequiredEnv(env, ENV_SINK_URI)
        case Err(e) => Err(e)
        case Ok(sinkURI) =>
          match GetRequiredEnv(env, ENV_CONSUMER_NAME)
          case Err(e) => Err(e)
          case Ok(consumerName) =>
            Ok(Config(GetOptionalEnv(env, ENV_KCL_IAM_ROLE_ARN), GetOptionalEnv(env, ENV_CREDS_FILE),
                      streamName, region, sinkURI, consumerName))
  }

  // ----- pkg/adapter/adapter.go: the adapter -----

  datatype CredentialMode = CredentialsFile | AssumedRole | NoCredentials

  function ChooseCredentials(c: Config): CredentialMode
  {
    if c.credsFile != "" then CredentialsFile
    else if c.kclIAMRoleARN != "" then AssumedRole
    else NoCredentials
  }

  /** How a call to Start ends: with one of its errors, or after stopCh closed. */
  datatype StartResult = ClientFailed | NoCredentialsFound | DescribeFailed | WorkerFailed | Stopped

  /** Sequence numbers order the records of a shard; the gaps between them are arbitrary. */
  type SequenceNumber = nat

  datatype Record = Record(sequenceNumber: SequenceNumber, data: string)

  /** What becomes of a POST to the sink: an error may be reported although the sink took the event. */
  datatype Reply = Accepted | Rejected | AcceptedButErrored

  datatype Checkpoint = NoCheckpoint | At(sequenceNumber: SequenceNumber) | ShardEnd

  datatype ShutdownReason = Requested | Terminate | Zombie

  function AfterSend(received: seq<seq<Record>>, batch: seq<Record>, reply: Reply): seq<seq<Record>>
  {
    if reply == Rejected then received else received + [batch]
  }

  /** A checkpoint after ProcessRecords; landed says whether a checkpoint write, if issued, took effect. */
  function AfterProcess(stored: Checkpoint, batch: seq<Record>, reply: Reply, landed: bool): Checkpoint
  {
    if batch != [] && reply == Accepted && landed then At(batch[|batch| - 1].sequenceNumber) else stored
  }

  function AfterShutdown(stored: Checkpoint, reason: ShutdownReason, landed: bool): Checkpoint
  {
    if reason == Terminate && landed then ShardEnd else stored
  }

  /** The CloudEvents client together with the sink it sends to. */
  class EventClient {
    const target: string
    var received: seq<seq<Record>>

    constructor (target: string)
      ensures this.target == target && received == []
    {
      this.target := target;
      received := [];
    }

    method Send(batch: seq<Record>, reply: Reply) returns (ok: bool)
      modifies this
      ensures ok == (reply == Accepted)
      ensures received == AfterSend(old(received), batch, reply)
    {
      if reply != Rejected {
        received := received + [batch];
      }
      ok := reply == Accepted;
    }
  }

  /**
   The checkpoint of one shard, as the record processor can set it: the worker library keeps it in memory (cached), and tries
   to write it to the lease table (stored). If the write fails, memory keeps the new one.
   */
  class Checkpointer {
    var cached: Checkpoint
    var stored: Checkpoint

    constructor ()
      ensures cached == NoCheckpoint && stored == NoCheckpoint
    {
      cached, stored := NoCheckpoint, NoCheckpoint;
    }

    /** A missing sequence number marks the end of the shard. */
    method Checkpoint(sequenceNumber: Option<SequenceNumber>, landed: bool) returns (ok: bool)
      modifies this
      ensures ok == landed
      ensures cached == match sequenceNumber case Some(sn) => At(sn) case None => ShardEnd
      ensures stored == if landed then cached else old(stored)
    {
      cached := match sequenceNumber case Some(sn) => At(sn) case None => ShardEnd;
      if landed {
        stored := cached;
      }
      ok := landed;
    }
  }

  class Adapter {
    const config: Config
    var client: EventClient?
    var streamARN: Option<string>

    /** A client, once there is one, sends to the configured sink: nobody else sets it. */
    ghost predicate Valid()
      reads this
    {
      client != null ==> client.target == config.sinkURI
    }

    /** What Start sets up before it hands control to the worker; the callbacks below rely on it. */
    ghost predicate Started()
      reads this
    {
      client != null && client.target == config.sinkURI && streamARN.Some?
    }

    constructor (config: Config)
      ensures Valid() && this.config == config && client == null && streamARN == None
    {
      this.config := config;
      client, streamARN := null, None;
    }

    /** Creates the client once; created says whether the client library accepts the sink URI. */
    method InitClient(created: bool) returns (ok: bool)
      requires Valid()
      modifies this`client
      ensures Valid()
      ensures old(client) != null ==> ok && client == old(client)
      ensures old(client) == null ==> ok == created
      ensures old(client) == null && created ==>
                client != null && fresh(client) && client.target == config.sinkURI && client.received == []
      ensures old(client) == null && !created ==> client == null
    {
      ok := true;
      if client == null {
        ok := created;
        if created {
          client := new EventClient(config.sinkURI);
        }
      }
    }

    /**
     The outcomes of the calls into the AWS libraries are parameters: the stream description, and whether
     the worker starts. mode is the kind of credentials in use when they were needed.
     */
    method Start(created: bool, description: Option<string>, workerStarts: bool)
      returns (r: StartResult, mode: CredentialMode)
      requires Valid()
      modifies this
      ensures Valid()
      ensures r == ClientFailed <==> old(client) == null && !created
      ensures r != ClientFailed ==> client != null && client.target == config.sinkURI && mode == ChooseCredentials(config)
      ensures old(client) == null && r != ClientFailed ==> fresh(client) && client.received == []
      ensures r != ClientFailed ==> (mode == CredentialsFile <==> config.credsFile != "")
      ensures r != ClientFailed ==> (mode == AssumedRole <==> config.credsFile == "" && config.kclIAMRoleARN != "")
      ensures r == NoCredentialsFound <==> r != ClientFailed && mode == NoCredentials
      ensures old(client) != null ==> client == old(client)
      ensures r in {DescribeFailed, WorkerFailed, Stopped} ==>
                (r == DescribeFailed <==> description == None) && (r == Stopped ==> workerStarts)
      ensures r == WorkerFailed ==> !workerStarts
      ensures r in {WorkerFailed, Stopped} ==> Started() && streamARN == description
      ensures r in {ClientFailed, NoCredentialsFound, DescribeFailed} ==> streamARN == old(streamARN)
    {
      mode := NoCredentials;
      var ok := InitClient(created);
      if !ok {
        return ClientFailed, mode;
      }
      if config.credsFile != "" {
        mode := CredentialsFile;
      } else if config.kclIAMRoleARN != "" {
        mode := AssumedRole;
      } else {
        return NoCredentialsFound, mode;
      }
      if description == None {
        return DescribeFailed, mode;
      }
      streamARN := description;
      r := if workerStarts then Stopped else WorkerFailed;
    }

    /** Both guards are demanded by the source: it dereferences the stream ARN and the first record. */
    method PostMessage(batch: seq<Record>, reply: Reply) returns (ok: bool)
      requires Started() && batch != []
      modifies client
      ensures client.target == config.sinkURI
      ensures ok == (reply == Accepted)
      ensures client.received == AfterSend(old(client.received), batch, reply)
    {
      ok := client.Send(batch, reply);
    }
  }

  // ----- pkg/adapter/adapter.go: the record processor -----

  class RecordProcessor {
    const adapter: Adapter

    constructor (adapter: Adapter)
      ensures this.adapter == adapter
    {
      this.adapter := adapter;
    }

    /** Has no result: the caller learns neither that a post failed nor that a checkpoint did not land. */
    method ProcessRecords(batch: seq<Record>, checkpointer: Checkpointer, reply: Reply, landed: bool)
      requires adapter.Started()
      modifies adapter.client, checkpointer
      ensures adapter.client.target == adapter.config.sinkURI
      ensures batch == [] ==> adapter.client.received == old(adapter.client.received)
      ensures batch != [] ==> adapter.client.received == AfterSend(old(adapter.client.received), batch, reply)
      ensures checkpointer.cached == AfterProcess(old(checkpointer.cached), batch, reply, true)
      ensures checkpointer.stored == AfterProcess(old(checkpointer.stored), batch, reply, landed)
    {
      if |batch| == 0 {
        return;
      }
      var ok := adapter.PostMessage(batch, reply);
      if !ok {
        return;
      }
      var lastRecordSequenceNumber := batch[|batch| - 1].sequenceNumber;
      var dropped := checkpointer.Checkpoint(Some(lastRecordSequenceNumber), landed);
    }

    method Shutdown(reason: ShutdownReason, checkpointer: Checkpointer, landed: bool)
      modifies checkpointer
      ensures checkpointer.cached == AfterShutdown(old(checkpointer.cached), reason, true)
      ensures checkpointer.stored == AfterShutdown(old(checkpointer.stored), reason, landed)
    {
      if reason == Terminate {
        var dropped := checkpointer.Checkpoint(None, landed);
      }
    }
  }

  class RecordProcessorFactory {
    const adapter: Adapter

    constructor (adapter: Adapter)
      ensures this.adapter == adapter
    {
      this.adapter := adapter;
    }

    /** Every processor is new and they all share one adapter. */
    method CreateProcessor() returns (p: RecordProcessor)
      ensures fresh(p) && p.adapter == adapter
    {
      p := new RecordProcessor(adapter);
    }
  }
}
