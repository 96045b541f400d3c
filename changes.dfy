/** The buildbot change hook of buildbot/mattermost.py: a Mattermost
    slash command `/build <repo> [<branch> [<revision>]]` is checked
    against the hook's options and turned into one change request. */
module Changes {
  import opened Wrappers

  /** A request argument: the form decoder gives either one string or a
      list of them. */
  datatype ArgValue = Single(s: string) | Many(items: seq<string>)

  /** Why getChanges gives no change: a ValueError it raises itself, or an
      exception a malformed request provokes (indexing an empty list,
      splitting a missing text). */
  datatype Failure = ValueError(message: string) | Crash(reason: string)

  /** One change as buildbot receives it. */
  datatype Change = Change(
    author: string, branch: string, category: string, comments: string,
    files: seq<string>, project: string, properties: map<string, string>,
    repository: string, revision: string, revlink: string)

  /** getChanges' return value: the changes and the source, always None. */
  datatype ChangeSet = ChangeSet(changes: seq<Change>, src: Option<string>)

  const Author := "buildbot"
  const Category := "mattermost"
  const Comments := "Build from mattermost"
  const Revlink := ""
  const BuildCommand := "/build"
  const DefaultBranch := "master"

  const MissingOptions := "Missing options!"
  const MissingToken := "Missing option 'token'"
  const MissingRepoBaseUrl := "Missing option 'repo_base_url'"
  const InvalidToken := "Invalid token!"
  const ChannelPrefix := "Only specific channel can run the command "
  const MissingParameters := "Missing parameters..."
  const WrongCommand := "Wrong command line!"

  // ---------------------------------------------------------------------------
  // firstOrNothing and the argument lookups

  /** firstOrNothing: the first element of a list, anything else as it
      is; an empty list has no first element. */
  function FirstOrNothing(v: Option<ArgValue>): (r: Result<Option<string>, Failure>)
    ensures v.None? ==> r == Ok(None)
    ensures v.Some? && v.value.Single? ==> r == Ok(Some(v.value.s))
    ensures v.Some? && v.value.Many? ==>
      (r.Ok? <==> |v.value.items| > 0) && (r.Ok? ==> r.value == Some(v.value.items[0]))
  {
    match v
    case None => Ok(None)
    case Some(Single(s)) => Ok(Some(s))
    case Some(Many(items)) => if |items| == 0 then Err(Crash("IndexError")) else Ok(Some(items[0]))
  }

  /** dict.get: the value under `k`, or None. */
  function Get<V>(m: map<string, V>, k: string): Option<V> {
    if k in m then Some(m[k]) else None
  }

  /** The value of argument `k` after firstOrNothing. */
  function Arg(args: map<string, ArgValue>, k: string): Result<Option<string>, Failure> {
    FirstOrNothing(Get(args, k))
  }

  /** How `%s` renders an optional string. */
  function Show(v: Option<string>): string {
    if v.Some? then v.value else "None"
  }

  // ---------------------------------------------------------------------------
  // str.split()

  /** The whitespace str.split() splits on. */
  predicate IsSpace(c: char) {
    c == ' ' || c == '\t' || c == '\n' || c == '\r' || c == '\U{0B}' || c == '\U{0C}'
  }

  predicate NoSpace(w: string) {
    forall i :: 0 <= i < |w| ==> !IsSpace(w[i])
  }

  /** The words of `s`, the word in progress being `cur`. */
  function SplitFrom(s: string, cur: string): seq<string>
    decreases |s|
  {
    if s == [] then (if cur == [] then [] else [cur])
    else if IsSpace(s[0]) then (if cur == [] then SplitFrom(s[1..], []) else [cur] + SplitFrom(s[1..], []))
    else SplitFrom(s[1..], cur + [s[0]])
  }

  /** str.split() without arguments: the maximal runs of non-whitespace. */
  function Split(s: string): seq<string> {
    SplitFrom(s, [])
  }

  /** `s` with its whitespace removed. */
  function Squeeze(s: string): string {
    if s == [] then [] else (if IsSpace(s[0]) then [] else [s[0]]) + Squeeze(s[1..])
  }

  function Concat(ws: seq<string>): string {
    if ws == [] then [] else ws[0] + Concat(ws[1..])
  }

  /** Every word is non-empty and holds no whitespace. */
  predicate Words(ws: seq<string>) {
    forall i :: 0 <= i < |ws| ==> |ws[i]| > 0 && NoSpace(ws[i])
  }

  lemma ConcatCons(w: string, ws: seq<string>)
    ensures Concat([w] + ws) == w + Concat(ws)
  {
    assert ([w] + ws)[1..] == ws;
  }

  lemma {:induction false} SplitFromWords(s: string, cur: string)
    requires NoSpace(cur)
    ensures Words(SplitFrom(s, cur))
    ensures Concat(SplitFrom(s, cur)) == cur + Squeeze(s)
    ensures SplitFrom(s, cur) == [] <==> cur == [] && Squeeze(s) == []
    decreases |s|
  {
    if s == [] {
      if cur != [] {
        ConcatCons(cur, []);
      }
    } else if IsSpace(s[0]) {
      SplitFromWords(s[1..], []);
      assert Squeeze(s) == Squeeze(s[1..]);
      if cur != [] {
        ConcatCons(cur, SplitFrom(s[1..], []));
      }
    } else {
      SplitFromWords(s[1..], cur + [s[0]]);
      assert Squeeze(s) == [s[0]] + Squeeze(s[1..]);
    }
  }

  /** The words of str.split() are non-empty, hold no whitespace, and
      together are exactly the non-whitespace characters of the text, in
      order; there are none exactly when the text is all whitespace. */
  lemma SplitSpec(s: string)
    ensures Words(Split(s))
    ensures Concat(Split(s)) == Squeeze(s)
    ensures Split(s) == [] <==> Squeeze(s) == []
  {
    SplitFromWords(s, []);
  }

  lemma {:induction false} SqueezeEmpty(s: string)
    ensures Squeeze(s) == [] <==> forall i :: 0 <= i < |s| ==> IsSpace(s[i])
  {
    if s != [] {
      SqueezeEmpty(s[1..]);
      assert forall i :: 1 <= i < |s| ==> s[i] == s[1..][i - 1];
    }
  }

  /** The text has no parameter exactly when it is all whitespace. */
  lemma SplitEmptyIff(s: string)
    ensures Split(s) == [] <==> forall i :: 0 <= i < |s| ==> IsSpace(s[i])
  {
    SplitSpec(s);
    SqueezeEmpty(s);
  }

  // ---------------------------------------------------------------------------
  // do_build and getChanges

  /** do_build: the change for `/build <repo> [<branch> [<revision>]]`. */
  function DoBuild(cmdArgs: seq<string>, repoBaseUrl: string): (r: ChangeSet)
    requires |cmdArgs| > 0
    ensures |r.changes| == 1 && r.src == None
    ensures var c := r.changes[0];
      && c.branch == (if |cmdArgs| >= 2 then cmdArgs[1] else DefaultBranch)
      && c.revision == (if |cmdArgs| >= 3 then cmdArgs[2] else "")
      && c.project == "mattermost_build_" + cmdArgs[0] + "_" + c.branch
      && c.repository == repoBaseUrl + cmdArgs[0]
      && c.author == Author && c.category == Category && c.comments == Comments
      && c.files == [] && c.properties == map[] && c.revlink == Revlink
  {
    var repo := cmdArgs[0];
    var branch := if |cmdArgs| >= 2 then cmdArgs[1] else DefaultBranch;
    var revision := if |cmdArgs| >= 3 then cmdArgs[2] else "";
    var project := "mattermost_build_" + repo + "_" + branch;
    var repository := repoBaseUrl + repo;
    ChangeSet([Change(Author, branch, Category, Comments, [], project, map[], repository, revision, Revlink)], None)
  }

  /** getChanges: the checks in their order, then do_build. */
  function GetChanges(args: map<string, ArgValue>, options: Option<map<string, string>>): (r: Result<ChangeSet, Failure>)
    ensures options.None? ==> r == Err(ValueError(MissingOptions))
    ensures options.Some? && "token" !in options.value ==> r == Err(ValueError(MissingToken))
    ensures options.Some? && "token" in options.value && "repo_base_url" !in options.value ==>
      r == Err(ValueError(MissingRepoBaseUrl))
  {
    if options.None? then Err(ValueError(MissingOptions))
    else
      var opts := options.value;
      if "token" !in opts then Err(ValueError(MissingToken))
      else if "repo_base_url" !in opts then Err(ValueError(MissingRepoBaseUrl))
      else
        var argToken := Arg(args, "token");
        if argToken.Err? then Err(argToken.error)
        else if argToken.value != Some(opts["token"]) then Err(ValueError(InvalidToken))
        else
          var optChannel := Get(opts, "channel");
          var argChannel := Arg(args, "channel_name");
          if argChannel.Err? then Err(argChannel.error)
          else if optChannel != argChannel.value then
            Err(ValueError(ChannelPrefix + Show(optChannel) + " " + Show(argChannel.value)))
          else
            var command := Arg(args, "command");
            if command.Err? then Err(command.error)
            else
              var text := Arg(args, "text");
              if text.Err? then Err(text.error)
              else if text.value.None? then Err(Crash("AttributeError"))
              else
                var cmdArgs := Split(text.value.value);
                if |cmdArgs| == 0 then Err(ValueError(MissingParameters))
                else if command.value != Some(BuildCommand) then Err(ValueError(WrongCommand))
                else Ok(DoBuild(cmdArgs, opts["repo_base_url"]))
  }

  // ---------------------------------------------------------------------------
  // What getChanges promises

  /** The argument `k` is present, well formed, and its first value is `v`. */
  predicate ArgEquals(args: map<string, ArgValue>, k: string, v: string) {
    k in args && (args[k] == Single(v) || (args[k].Many? && |args[k].items| > 0 && args[k].items[0] == v))
  }

  /** The channel argument agrees with the channel option; both absent
      counts as agreement. */
  predicate ChannelAllowed(args: map<string, ArgValue>, opts: map<string, string>) {
    if "channel" in opts then ArgEquals(args, "channel_name", opts["channel"])
    else "channel_name" !in args
  }

  /** A request is accepted exactly when the options are complete, the
      token and channel match, the command is `/build`, and the text has
      at least one word; the result is then do_build of those words. */
  lemma GetChangesOkIff(args: map<string, ArgValue>, options: Option<map<string, string>>)
    ensures GetChanges(args, options).Ok? <==>
      && options.Some? && "token" in options.value && "repo_base_url" in options.value
      && ArgEquals(args, "token", options.value["token"])
      && ChannelAllowed(args, options.value)
      && ArgEquals(args, "command", BuildCommand)
      && exists t :: ArgEquals(args, "text", t) && Split(t) != []
    ensures GetChanges(args, options).Ok? ==>
      var t := Arg(args, "text").value.value;
      Split(t) != [] && GetChanges(args, options).value == DoBuild(Split(t), options.value["repo_base_url"])
  {
    var r := GetChanges(args, options);
    if r.Ok? {
      var t := Arg(args, "text").value.value;
      assert ArgEquals(args, "text", t);
    } else if && options.Some? && "token" in options.value && "repo_base_url" in options.value
              && ArgEquals(args, "token", options.value["token"])
              && ChannelAllowed(args, options.value)
              && ArgEquals(args, "command", BuildCommand) {
      forall t | ArgEquals(args, "text", t)
        ensures Split(t) == []
      {
        assert Arg(args, "text") == Ok(Some(t));
      }
    }
  }

  /** With valid options and a matching token, a channel that differs
      from the configured one is refused, naming both. */
  lemma ChannelRefused(args: map<string, ArgValue>, opts: map<string, string>, argChannel: Option<string>)
    requires "token" in opts && "repo_base_url" in opts
    requires ArgEquals(args, "token", opts["token"])
    requires Arg(args, "channel_name") == Ok(argChannel)
    requires argChannel != Get(opts, "channel")
    ensures GetChanges(args, Some(opts)) ==
      Err(ValueError(ChannelPrefix + Show(Get(opts, "channel")) + " " + Show(argChannel)))
  {
    assert Arg(args, "token") == Ok(Some(opts["token"]));
  }

  /** A well-formed token argument that is not the configured token is
      refused, whatever else the request holds. */
  lemma TokenRefused(args: map<string, ArgValue>, opts: map<string, string>, argToken: Option<string>)
    requires "token" in opts && "repo_base_url" in opts
    requires Arg(args, "token") == Ok(argToken) && argToken != Some(opts["token"])
    ensures GetChanges(args, Some(opts)) == Err(ValueError(InvalidToken))
  {
  }

  /** Once token and channel pass, a text without words is refused before
      the command is looked at. */
  lemma ParametersCheckedFirst(args: map<string, ArgValue>, opts: map<string, string>, t: string, command: Option<string>)
    requires "token" in opts && "repo_base_url" in opts
    requires ArgEquals(args, "token", opts["token"])
    requires ChannelAllowed(args, opts)
    requires Arg(args, "command") == Ok(command)
    requires ArgEquals(args, "text", t) && forall i :: 0 <= i < |t| ==> IsSpace(t[i])
    ensures GetChanges(args, Some(opts)) == Err(ValueError(MissingParameters))
  {
    assert Arg(args, "token") == Ok(Some(opts["token"]));
    assert Arg(args, "text") == Ok(Some(t));
    SplitEmptyIff(t);
  }

  /** Once token, channel and parameters pass, any command but `/build`
      is refused. */
  lemma CommandRefused(args: map<string, ArgValue>, opts: map<string, string>, t: string, command: Option<string>)
    requires "token" in opts && "repo_base_url" in opts
    requires ArgEquals(args, "token", opts["token"])
    requires ChannelAllowed(args, opts)
    requires Arg(args, "command") == Ok(command) && command != Some(BuildCommand)
    requires ArgEquals(args, "text", t) && Split(t) != []
    ensures GetChanges(args, Some(opts)) == Err(ValueError(WrongCommand))
  {
    assert Arg(args, "token") == Ok(Some(opts["token"]));
    assert Arg(args, "text") == Ok(Some(t));
  }
}
