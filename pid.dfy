/** The curator's auto_set_pid setting: its getter, its setter and the
    auto_set_pid_off bracket that turns it off around a block of work and
    back on after it, whether or not the block raises. */
module Pid {
  import opened Wrappers
  import opened Curator

  const SettingsPath := "/pid/rest/settings"
  const SettingsUpdatePath := "/pid/rest/settings/"

  /** The PATCH the setter sends. */
  function SetRequest(value: bool): Request {
    Patch(SettingsUpdatePath, map["auto_set_pid" := VBool(value)])
  }

  /** The setting after the curator has applied `sent` in order: each
      setter request overwrites it, every other request leaves it. */
  function Replay(setting: bool, sent: seq<Request>): (r: bool)
    ensures sent == [] ==> r == setting
    decreases |sent|
  {
    if sent == [] then setting
    else
      var last := sent[|sent| - 1];
      var before := Replay(setting, sent[..|sent| - 1]);
      if last.verb == PATCH && last.path == SettingsUpdatePath && "auto_set_pid" in last.data &&
         last.data["auto_set_pid"].VBool?
      then last.data["auto_set_pid"].b
      else before
  }

  /** Replaying two batches is replaying the first, then the second. */
  lemma {:induction false} ReplayAppend(setting: bool, a: seq<Request>, b: seq<Request>)
    ensures Replay(setting, a + b) == Replay(Replay(setting, a), b)
    decreases |b|
  {
    if b != [] {
      assert (a + b)[..|a + b| - 1] == a + b[..|b| - 1];
      assert (a + b)[|a + b| - 1] == b[|b| - 1];
      ReplayAppend(setting, a, b[..|b| - 1]);
    } else {
      assert a + b == a;
    }
  }

  /** A setter request sets the value it carries, whatever came before. */
  lemma ReplaySet(setting: bool, value: bool)
    ensures Replay(setting, [SetRequest(value)]) == value
  {
    assert [SetRequest(value)][..0] == [];
  }

  /** The requests auto_set_pid_off sends: none for a non-bool `work` (a
      type error raised before anything else), nothing for False, and the
      two setter calls around the block for True. */
  function BracketRequests(work: Flag): (r: Result<seq<Request>>)
    ensures work.NotBool? <==> r.Err?
    ensures r.Err? ==> r.error == TypeError("work must be a bool")
    ensures work == No ==> r == Ok([])
    ensures work == Yes ==> r.Ok? && |r.value| == 2 && r.value[0] == SetRequest(false) && r.value[1] == SetRequest(true)
  {
    match work
    case NotBool(_) => Err(TypeError("work must be a bool"))
    case No => Ok([])
    case Yes => Ok([SetRequest(false), SetRequest(true)])
  }

  /** With work=True the setting is off during the block and on after it,
      whatever it was before; with work=False it is never touched. */
  lemma {:induction false} BracketRestoresOn(before: bool, work: Flag)
    requires !work.NotBool?
    ensures work == Yes ==> Replay(before, BracketRequests(work).value[..1]) == false
    ensures work == Yes ==> Replay(before, BracketRequests(work).value) == true
    ensures work == No ==> Replay(before, BracketRequests(work).value) == before
  {
    if work == Yes {
      var w := BracketRequests(work).value;
      assert w[..1] == [SetRequest(false)];
      ReplaySet(before, false);
      assert w == [SetRequest(false)] + [SetRequest(true)];
      ReplayAppend(before, [SetRequest(false)], [SetRequest(true)]);
      ReplaySet(false, true);
    }
  }

  /** The client's view of the setting: the curator's value, the value
      it started with and the requests sent to it, oldest first. */
  class PidSettings {
    var autoSetPid: bool
    var sent: seq<Request>
    ghost var initial: bool

    /** The setting is the replay of what was sent since the start. */
    ghost predicate Valid()
      reads this
    {
      autoSetPid == Replay(initial, sent)
    }

    constructor (setting: bool)
      ensures Valid()
      ensures autoSetPid == setting && initial == setting && sent == []
    {
      autoSetPid := setting;
      sent := [];
      initial := setting;
    }

    /** The getter: a GET of the settings, answering the current value. */
    method AutoSetPid() returns (v: bool)
      requires Valid()
      modifies this
      ensures Valid()
      ensures v == old(autoSetPid)
      ensures autoSetPid == old(autoSetPid) && initial == old(initial)
      ensures sent == old(sent) + [Get(SettingsPath, map[])]
    {
      v := autoSetPid;
      Skip(initial, sent, Get(SettingsPath, map[]));
      sent := sent + [Get(SettingsPath, map[])];
    }

    /** The setter: a PATCH of `{'auto_set_pid': value}`. */
    method SetAutoSetPid(value: bool)
      requires Valid()
      modifies this
      ensures Valid()
      ensures autoSetPid == value && initial == old(initial)
      ensures sent == old(sent) + [SetRequest(value)]
    {
      ReplayAppend(initial, sent, [SetRequest(value)]);
      ReplaySet(Replay(initial, sent), value);
      autoSetPid := value;
      sent := sent + [SetRequest(value)];
    }

    /** auto_set_pid_off around a block whose outcome is `block`: the
        block's outcome is the bracket's (the setting is restored even when
        the block raises), `during` is the setting while the block runs. */
    method AutoSetPidOff(work: Flag, block: Outcome) returns (r: Outcome, during: bool)
      requires Valid()
      modifies this
      ensures Valid() && initial == old(initial)
      ensures BracketRequests(work).Err? ==> r == Fail(BracketRequests(work).error)
      ensures BracketRequests(work).Ok? ==> r == block
      ensures BracketRequests(work).Ok? ==> sent == old(sent) + BracketRequests(work).value
      ensures BracketRequests(work).Err? ==> sent == old(sent)
      ensures work == Yes ==> !during && autoSetPid
      ensures work != Yes ==> during == old(autoSetPid) && autoSetPid == old(autoSetPid)
    {
      if work.NotBool? {
        return Fail(TypeError("work must be a bool")), autoSetPid;
      }
      if work == Yes {
        SetAutoSetPid(false);
      }
      during := autoSetPid;
      r := block;
      if work == Yes {
        SetAutoSetPid(true);
      }
    }
  }

  /** A request other than the setter's leaves the setting. */
  lemma Skip(setting: bool, sent: seq<Request>, q: Request)
    requires q.verb == GET
    ensures Replay(setting, sent + [q]) == Replay(setting, sent)
  {
    assert (sent + [q])[..|sent + [q]| - 1] == sent;
  }
}
