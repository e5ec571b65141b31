/** The per-room session manager (app/agent/session.py): a running flag and
    the audio pipeline it owns. */
module Session {
  import opened Wrappers
  import opened Json
  import opened Config
  import opened Pipeline

  class AgentSessionManager {
    const room: Room
    /** `_audio_pipeline`. */
    var pipeline: AudioPipeline?
    /** `_running`. */
    var running: bool

    /** The manager holds a pipeline, for its own room, exactly while it runs. */
    ghost predicate Valid()
      reads this
    {
      (running <==> pipeline != null) && (pipeline != null ==> pipeline.room == room)
    }

    constructor (room: Room)
      ensures Valid() && this.room == room && !running && pipeline == null
    {
      this.room := room;
      pipeline := null;
      running := false;
    }

    /** `start()`: a no-op while running. Otherwise the flag is set, a new pipeline
        is created and started; when that start raises, `stop()` runs (with
        `acloseOk` deciding whether the pipeline's session closes) and the error
        propagates (`ok` false), leaving the manager stopped and without a pipeline. */
    method Start(s: McpSettings, step: StartStep, acloseOk: bool) returns (ok: bool)
      requires Valid()
      modifies this
      ensures Valid()
      ensures old(running) ==> ok && running && pipeline == old(pipeline)
      ensures !old(running) ==> ok == (step == Starts)
      ensures !old(running) && ok ==>
                running && fresh(pipeline) &&
                pipeline.session == Some(SessionFor(ServersFor(s, GetMcpServerUrls(s.urlsRaw),
                                                               GetMcpServerHeaders(s.headersRaw, s.loads))))
      ensures !old(running) && !ok ==> !running && pipeline == null
    {
      if running {
        return true;
      }
      running := true;
      var p := new AudioPipeline(room);
      pipeline := p;
      ok := p.Start(s, step);
      if !ok {
        Stop(acloseOk);
      }
    }

    /** `stop()`: a no-op while stopped. Otherwise the flag is cleared, the
        pipeline is stopped (which never raises) and dropped. */
    method Stop(acloseOk: bool)
      requires Valid()
      modifies this, pipeline
      ensures Valid() && !running && pipeline == null
      ensures old(pipeline) != null ==>
                old(pipeline).session == if old(pipeline.session).Some? && acloseOk then None else old(pipeline.session)
    {
      if !running {
        return;
      }
      running := false;
      if pipeline != null {
        pipeline.Stop(acloseOk);
      }
      pipeline := null;
    }

    /** `is_running`: the flag, which holds exactly while a pipeline is held. */
    function IsRunning(): (r: bool)
      reads this
      requires Valid()
      ensures r <==> pipeline != null
    {
      running
    }

    /** `room_name`: the room the manager was created for, which is also the
        room of the pipeline it holds. */
    function RoomName(): (r: string)
      reads this
      ensures r == room.name
      ensures Valid() && running ==> r == pipeline.room.name
    {
      room.name
    }
  }
}
