/** The connection state machine as an object; each method is proved against Connecting. */
module ConnectorObject {
  import opened Containers
  import opened Protocol
  import M = Connecting
  import ConnectorLaws

  class Connector {
    const cfg: Config
    var status: M.Status
    var local: nat
    var remote: nat
    var jobs: map<nat, nat>
    var seen: Time
    var dead: Time
    var onConnect: M.Handler
    var onShutdown: M.Handler
    var posted: seq<M.Post>
    var alarms: seq<Code>

    function State(): M.Connector
      reads this
    {
      M.Connector(status, local, remote, jobs, seen, dead, onConnect, onShutdown, posted, alarms)
    }

    ghost predicate Valid()
      reads this
    {
      M.JobsOk(State())
    }

    /** A connector that has been opened. */
    constructor (cfg: Config)
      ensures Valid() && this.cfg == cfg && State() == M.InitConnector()
    {
      this.cfg := cfg;
      status, local, remote, jobs := M.Initial, 0, 0, map[];
      seen, dead, onConnect, onShutdown, posted, alarms := Never, Never, M.NoHandler, M.NoHandler, [], [];
    }

    method PostConnect(code: Code)
      modifies this
      ensures State() == M.PostConnect(old(State()), code)
    {
      posted := posted + [M.Post(onConnect, code)];
      onConnect := M.NoHandler;
    }

    method PostShutdown(code: Code)
      modifies this
      ensures State() == M.PostShutdown(old(State()), code)
    {
      posted := posted + [M.Post(onShutdown, code)];
      onShutdown := M.NoHandler;
    }

    method Error(code: Code)
      modifies this
      ensures Valid() && State() == M.Error(old(State()), code)
    {
      if onConnect != M.NoHandler {
        PostConnect(code);
      }
      if onShutdown != M.NoHandler {
        PostShutdown(code);
      }
      local, remote, seen, dead, jobs, status := 0, 0, Never, Never, map[], M.Finished;
    }

    method Admits(pin: nat) returns (b: bool)
      ensures b == M.Admits(State(), pin)
    {
      b := local != 0 && (remote == 0 || remote == pin);
    }

    method ParseSection(pin: nat, x: Section, now: nat)
      requires Valid()
      modifies this
      ensures Valid() && State() == M.ParseSection(old(State()), pin, x, now, cfg)
    {
      match x {
      case Link =>
        jobs := Emplace(jobs, M.LINK_ECHO, 0);
        if status == M.Accepting {
          remote := pin;
        }
      case LinkEcho =>
        if status == M.Connecting {
          status, dead, remote := M.Linked, Never, pin;
          jobs := jobs - {M.LINK};
          jobs := Emplace(jobs, M.PING, 0);
          PostConnect(Success);
        }
      case Tear =>
        jobs := Emplace(jobs, M.TEAR_ECHO, 0);
        if status == M.Linked {
          status, dead := M.Tearing, At(now + cfg.shutdownTimeout);
        }
      case TearEcho =>
        if status == M.Shutting {
          status := M.Finished;
          jobs := jobs - {M.TEAR};
          PostShutdown(Success);
        }
      case Ping(stamp) =>
        jobs := Emplace(jobs, M.PING_ECHO, stamp);
      case PingEcho(_) =>
        jobs := jobs - {M.PING};
        jobs := Emplace(jobs, M.PING, now + cfg.pingTimeout);
      case _ =>
      }
    }

    method Parse(pin: nat, secs: seq<Section>, now: nat)
      requires Valid()
      modifies this
      ensures Valid() && State() == M.Parse(old(State()), pin, secs, now, cfg)
    {
      seen := At(now);
      ghost var begun := State();
      var i := 0;
      while i < |secs|
        invariant 0 <= i <= |secs| && Valid()
        invariant M.ParseAll(State(), pin, secs[i..], now, cfg) == M.ParseAll(begun, pin, secs, now, cfg)
      {
        assert secs[i..][0] == secs[i] && secs[i..][1..] == secs[i + 1..];
        ParseSection(pin, secs[i], now);
        i := i + 1;
      }
    }

    /** The first job, in key order, that is an echo or whose time has come. */
    method FindReady(now: nat) returns (found: bool, k: nat)
      ensures found <==> M.Ready(State(), now) != {}
      ensures found ==> k in jobs && k == MinOf(M.Ready(State(), now))
    {
      var rest := jobs.Keys;
      found, k := false, 0;
      while rest != {}
        invariant rest <= jobs.Keys
        invariant M.Ready(State(), now) <= rest
        decreases |rest|
      {
        k := MinOf(rest);
        if k % 2 == 1 || jobs[k] < now {
          assert k in M.Ready(State(), now);
          return true, k;
        }
        rest := rest - {k};
      }
    }

    method RunJob(k: nat, now: nat, repeat: nat) returns (x: Section)
      requires Valid() && k in jobs
      modifies this
      ensures Valid() && x == M.JobSection(old(State()), k, now) && State() == M.AfterJob(old(State()), k, now, repeat)
    {
      if k == M.PING {
        x := Ping(now);
      } else if k == M.PING_ECHO {
        x := PingEcho(jobs[k]);
      } else {
        x := if k == M.LINK then Link else if k == M.LINK_ECHO then LinkEcho else if k == M.TEAR then Tear else TearEcho;
      }
      if k == M.LINK_ECHO {
        jobs := jobs - {k};
        if status == M.Accepting {
          status, dead := M.Linked, Never;
          PostConnect(Success);
        }
      } else if k == M.PING_ECHO {
        jobs := jobs - {k};
      } else if k == M.TEAR_ECHO {
        jobs := jobs - {k};
        status := M.Finished;
        if onShutdown != M.NoHandler {
          PostShutdown(Success);
        }
      } else {
        jobs := jobs[k := now + repeat];
      }
    }

    method RunJobs(room: nat, now: nat, repeat: nat) returns (sections: seq<Section>, left: nat)
      requires Valid() && ConnectorLaws.Need(M.Ready(State(), now)) <= room
      modifies this
      ensures Valid() && M.Burst(State(), sections, left) == M.RunJobs(old(State()), room, now, repeat)
    {
      sections, left := [], room;
      hide M.RunJobs, M.AfterJob, M.JobSection, M.Ready, ConnectorLaws.Need;
      while left >= SECTION_HEADER
        invariant Valid() && ConnectorLaws.Need(M.Ready(State(), now)) <= left
        invariant Ahead(M.RunJobs(old(State()), room, now, repeat), sections, M.RunJobs(State(), left, now, repeat))
        decreases |M.Ready(State(), now)|
      {
        RunJobsUnfolds(State(), left, now, repeat);
        var found, k := FindReady(now);
        if !found {
          return;
        }
        M.ReadyShrinks(State(), k, now, repeat);
        ConnectorLaws.NeedSplits(State(), k, now);
        var x := RunJob(k, now, repeat);
        sections, left := sections + [x], left - SizeOf(x);
      }
      RunJobsUnfolds(State(), left, now, repeat);
    }

    /** `imbue` into a packet whose body has room for every ready job, as any body of 40 bytes has. */
    method Imbue(room: nat, now: nat, repeat: nat) returns (sections: seq<Section>, left: nat)
      requires Valid() && ConnectorLaws.Need(M.Ready(State(), now)) <= room
      modifies this
      ensures Valid() && M.Burst(State(), sections, left) == M.Imbue(old(State()), room, now, repeat, cfg)
    {
      if (status == M.Linked && seen.At? && seen.t + cfg.pingTimeout + M.GRACE < now) || dead.Before(now) {
        alarms := alarms + [Interrupted];
        return [], room;
      }
      sections, left := RunJobs(room, now, repeat);
    }

    static ghost predicate Ahead(whole: M.Burst, done: seq<Section>, rest: M.Burst) {
      whole == rest.(sections := done + rest.sections)
    }

    method Shutdown(id: nat, now: nat) returns (wake: bool)
      requires Valid()
      modifies this
      ensures Valid() && State() == M.Shutdown(old(State()), id, now, cfg)
      ensures wake <==> old(status) == M.Linked || old(status) == M.Tearing
    {
      if status == M.Finished {
        posted := posted + [M.Post(M.Handler(id), Success)];
        return false;
      }
      if status != M.Linked && status != M.Tearing {
        posted := posted + [M.Post(M.Handler(id), if status == M.Shutting then InProgress else NotConnected)];
        return false;
      }
      onShutdown := M.Handler(id);
      dead := At(now + cfg.shutdownTimeout);
      if status != M.Tearing {
        status := M.Shutting;
        jobs := Emplace(jobs, M.TEAR, 0);
      }
      return true;
    }

    method Connect(id: nat, pin: nat, now: nat) returns (run: bool)
      requires Valid()
      modifies this
      ensures Valid() && State() == M.Connect(old(State()), id, pin, now, cfg)
      ensures run <==> old(status) == M.Initial
    {
      if status != M.Initial {
        var code := if status == M.Connecting then InProgress else if status == M.Linked then AlreadyConnected else NoPermission;
        posted := posted + [M.Post(M.Handler(id), code)];
        return false;
      }
      local, onConnect, dead, status := pin, M.Handler(id), At(now + cfg.connectTimeout), M.Connecting;
      jobs := Emplace(jobs, M.LINK, 0);
      return true;
    }

    method Accept(id: nat, pin: nat, now: nat) returns (run: bool)
      requires Valid()
      modifies this
      ensures Valid() && State() == M.Accept(old(State()), id, pin, now, cfg)
      ensures run <==> old(status) == M.Initial
    {
      if status != M.Initial {
        var code := if status == M.Accepting then InProgress else if status == M.Linked then AlreadyConnected else NoPermission;
        posted := posted + [M.Post(M.Handler(id), code)];
        return false;
      }
      local, onConnect, dead, status := pin, M.Handler(id), At(now + cfg.acceptTimeout), M.Accepting;
      return true;
    }
  }

  lemma RunJobsUnfolds(c: M.Connector, room: nat, now: nat, repeat: nat)
    requires M.JobsOk(c) && ConnectorLaws.Need(M.Ready(c, now)) <= room
    ensures room < SECTION_HEADER || M.Ready(c, now) == {} ==> M.RunJobs(c, room, now, repeat) == M.Burst(c, [], room)
    ensures room >= SECTION_HEADER && M.Ready(c, now) != {} ==>
              var k := MinOf(M.Ready(c, now));
              var x := M.JobSection(c, k, now);
              var d := M.AfterJob(c, k, now, repeat);
              && SizeOf(x) <= room
              && M.JobsOk(d)
              && var b := M.RunJobs(d, room - SizeOf(x), now, repeat);
                 M.RunJobs(c, room, now, repeat) == b.(sections := [x] + b.sections)
  {
    if room >= SECTION_HEADER && M.Ready(c, now) != {} {
      var k := MinOf(M.Ready(c, now));
      ConnectorLaws.NeedSplits(c, k, now);
      ConnectorLaws.JobsShrink(c, k, now, repeat);
    }
  }
}
