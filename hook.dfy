/** The logrus hook of hooks/logrus/mmhooklogrus.go: its configuration,
    the levels it fires for, the single shared instance that NewHook
    creates once and then updates, and Fire, which turns an entry into a
    message for the sender. */
module Hooks {
  import opened Wrappers
  import opened Buffers
  import opened LogEntry
  import opened Attachments
  import opened Messages

  /** The levels among the first `n` of `ls` that are at least
      `minLevel`, in their order in `ls`. */
  function Kept(ls: seq<Level>, minLevel: Level, n: nat): seq<Level>
    requires n <= |ls|
  {
    if n == 0 then []
    else Kept(ls, minLevel, n - 1) + (if ls[n - 1] >= minLevel then [ls[n - 1]] else [])
  }

  /** The levels a hook with threshold `minLevel` fires for. */
  function LevelsFrom(minLevel: Level): seq<Level> {
    Kept(AllLevels, minLevel, |AllLevels|)
  }

  /** The run of levels `lo`, `lo + 1`, ..., `hi - 1`. */
  function Run(lo: nat, hi: nat): (r: seq<nat>)
    ensures |r| == if lo <= hi then hi - lo else 0
    ensures forall i :: 0 <= i < |r| ==> r[i] == lo + i
  {
    if lo >= hi then [] else seq(hi - lo, i => lo + i)
  }

  lemma KeptRunStep(minLevel: Level, n: nat)
    requires 0 < n <= 7
    requires Kept(AllLevels, minLevel, n - 1) == Run(minLevel, n - 1)
    ensures Kept(AllLevels, minLevel, n) == Run(minLevel, n)
  {
    assert AllLevels[n - 1] == n - 1;
    if n - 1 >= minLevel {
      assert Run(minLevel, n) == Run(minLevel, n - 1) + [n - 1];
    }
  }

  lemma {:induction false} KeptRun(minLevel: Level, n: nat)
    requires n <= 7
    ensures Kept(AllLevels, minLevel, n) == Run(minLevel, n)
  {
    if n > 0 {
      KeptRun(minLevel, n - 1);
      KeptRunStep(minLevel, n);
    }
  }

  /** The filter keeps exactly the levels from `minLevel` up to Trace,
      in ascending order, each once. */
  lemma LevelsFromRun(minLevel: Level)
    ensures LevelsFrom(minLevel) == Run(minLevel, 7)
    ensures forall l: Level :: l in LevelsFrom(minLevel) <==> l >= minLevel
    ensures |LevelsFrom(minLevel)| == 7 - minLevel
  {
    KeptRun(minLevel, 7);
    var r := Run(minLevel, 7);
    forall l: Level | l >= minLevel
      ensures l in r
    {
      assert r[l - minLevel] == l;
    }
  }

  /** The level loop of NewHook: every level of logrus.AllLevels that is
      at least `minLevel`, appended in that order. */
  method FilterLevels(minLevel: Level) returns (levels: seq<Level>)
    ensures levels == LevelsFrom(minLevel)
  {
    levels := [];
    for i := 0 to |AllLevels|
      invariant levels == Kept(AllLevels, minLevel, i)
    {
      var lvl := AllLevels[i];
      if lvl >= minLevel {
        levels := levels + [lvl];
      }
    }
  }

  /** mmHookLogrus: where and as whom to post, the default attachment,
      the host, the levels it fires for, and the messages it has handed
      to the sender, oldest first. */
  class Hook {
    var endpoint: Bytes
    var channel: Bytes
    var username: Bytes
    var defAttc: Option<Attachment>
    var hostname: Bytes
    var levels: seq<Level>
    var outbox: seq<Message>

    /** The configuration NewHook may overwrite. */
    function Settings(): (Bytes, Bytes, Bytes, Option<Attachment>)
      reads this
    {
      (endpoint, channel, username, defAttc)
    }

    /** A new hook as NewHook's first call builds it; nothing sent yet. */
    constructor (endpoint: Bytes, channel: Bytes, username: Bytes, defAttc: Option<Attachment>,
                 hostname: Bytes, levels: seq<Level>)
      ensures Settings() == (endpoint, channel, username, defAttc)
      ensures this.hostname == hostname && this.levels == levels && outbox == []
    {
      this.endpoint := endpoint;
      this.channel := channel;
      this.username := username;
      this.defAttc := defAttc;
      this.hostname := hostname;
      this.levels := levels;
      outbox := [];
    }

    /** Levels: the levels the hook fires for. */
    method Levels() returns (ls: seq<Level>)
      ensures ls == levels
    {
      ls := levels;
    }

    /** The getters, without their lock. */
    function Endpoint(): Bytes reads this { endpoint }
    function Channel(): Bytes reads this { channel }
    function Username(): Bytes reads this { username }
    function Attachment(): Option<Attachment> reads this { defAttc }
    function Hostname(): Bytes reads this { hostname }

    /** Fire: no entry, nothing sent; otherwise exactly one new message,
      built by NewMessage from the hook's settings and the entry, joins
      the outbox. The error is always nil. */
    method Fire(entry: Option<Entry>) returns (err: Option<string>)
      modifies this
      ensures err == None
      ensures Settings() == old(Settings()) && hostname == old(hostname) && levels == old(levels)
      ensures entry.None? ==> outbox == old(outbox)
      ensures entry.Some? ==>
        && |outbox| == |old(outbox)| + 1
        && outbox[..|old(outbox)|] == old(outbox)
        && fresh(outbox[|old(outbox)|])
      ensures entry.Some? ==> var m, e := outbox[|outbox| - 1], entry.value;
        && m.channel == [] && m.username == [] && m.hostname == []
        && (m.attc.None? <==> defAttc.None?)
        && m.attc == (if defAttc.None? then None else Some(ForEntry(defAttc.value, e)))
        && m.entryData == e.data && m.entryLevel == e.level && m.entryMsg == e.message
        && m.dataKeys == [] && m.buf.bytes == []
    {
      if entry.None? {
        return None;
      }
      var msg := new Message(Channel(), Username(), Hostname(), Attachment(), entry.value);
      outbox := outbox + [msg];
      err := None;
    }
  }

  /** The package's single shared hook, absent until NewHook first runs. */
  class Registry {
    var hook: Hook?

    constructor ()
      ensures hook == null
    {
      hook := null;
    }

    /** NewHook: the levels are filtered first; the first call creates
      the hook, taking the host name from the operating system, or from
      the HOSTNAME variable when that fails; later calls overwrite only
      the endpoint, channel, username and default attachment. The shared
      hook is returned either way. */
    method NewHook(endpoint: Bytes, channel: Bytes, username: Bytes, attc: Option<Attachment>,
                   minLevel: Level, osHostname: Option<Bytes>, envHostname: Bytes) returns (h: Hook)
      modifies this, hook
      ensures hook == h
      ensures h.Settings() == (endpoint, channel, username, attc)
      ensures old(hook) == null ==>
        && fresh(h)
        && h.levels == LevelsFrom(minLevel)
        && h.hostname == (if osHostname.Some? then osHostname.value else envHostname)
        && h.outbox == []
      ensures old(hook) != null ==>
        && h == old(hook)
        && h.levels == old(hook.levels)
        && h.hostname == old(hook.hostname)
        && h.outbox == old(hook.outbox)
    {
      var levels := FilterLevels(minLevel);
      if hook == null {
        var hostname := if osHostname.Some? then osHostname.value else envHostname;
        hook := new Hook(endpoint, channel, username, attc, hostname, levels);
      } else {
        hook.endpoint := endpoint;
        hook.channel := channel;
        hook.username := username;
        hook.defAttc := attc;
      }
      h := hook;
    }
  }
}
