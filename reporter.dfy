/** The buildbot status formatter of buildbot/mattermost_reporter.py: a
    build turns into a post for the `ci` channel saying whether it is
    running, succeeded or failed. */
module Reporter {

  /** buildbot's result code of a successful build. */
  const SUCCESS: int := 0

  /** The parts of buildbot's build dictionary the formatter reads:
      builder.name, the branch property (value and source), complete,
      results and url. */
  datatype Build = Build(builderName: string, branchProperty: (string, string),
                         complete: bool, results: int, url: string)

  /** The Mattermost payload: channel, username and text. */
  datatype Post = Post(channel: string, username: string, text: string)

  const Channel := "ci"
  const Username := "buildbot"
  const Rocket := ":rocket:"
  const Passed := ":white_check_mark:"
  const Failed := ":x:"
  const Finished := "Finished"
  const Building := "Building"

  /** formatter: the status icon and word, then builder, branch and url. */
  function Formatter(build: Build): (p: Post)
    ensures p.channel == Channel && p.username == Username
    ensures p.text == Status(build) + " " + Phase(build) + " " + build.builderName
                      + " at " + build.branchProperty.0 + " : " + build.url + "\n"
  {
    var repo := build.builderName;
    var branch := build.branchProperty.0;
    var status := if build.complete then (if build.results == SUCCESS then Passed else Failed) else Rocket;
    var phase := if build.complete then Finished else Building;
    var text := status + " " + phase + " " + repo + " at " + branch + " : " + build.url + "\n";
    Post(Channel, Username, text)
  }

  /** The icon a build's state calls for. */
  function Status(build: Build): string {
    if !build.complete then Rocket else if build.results == SUCCESS then Passed else Failed
  }

  /** Finished for a complete build, Building otherwise. */
  function Phase(build: Build): string {
    if build.complete then Finished else Building
  }

  predicate StartsWith(s: string, prefix: string) {
    |prefix| <= |s| && s[..|prefix|] == prefix
  }

  lemma PrefixOf(a: string, b: string)
    ensures StartsWith(a + b, a)
  {
    assert (a + b)[..|a|] == a;
  }

  /** Whether a post says the build passed, failed or is running is read
      off the start of its text: each opening belongs to exactly one case. */
  lemma FormatterStatus(build: Build)
    ensures StartsWith(Formatter(build).text, Passed + " " + Finished + " ") <==> build.complete && build.results == SUCCESS
    ensures StartsWith(Formatter(build).text, Failed + " " + Finished + " ") <==> build.complete && build.results != SUCCESS
    ensures StartsWith(Formatter(build).text, Rocket + " " + Building + " ") <==> !build.complete
  {
    var t := Formatter(build).text;
    var rest := build.builderName + " at " + build.branchProperty.0 + " : " + build.url + "\n";
    assert t == (Status(build) + " " + Phase(build) + " ") + rest;
    PrefixOf(Status(build) + " " + Phase(build) + " ", rest);
    // The three openings already differ in their second character.
    assert (Passed + " " + Finished + " ")[1] == 'w';
    assert (Failed + " " + Finished + " ")[1] == 'x';
    assert (Rocket + " " + Building + " ")[1] == 'r';
  }

  /** The text ends in the build's url and a newline. */
  lemma FormatterEndsWithUrl(build: Build)
    ensures var t := Formatter(build).text;
      |t| > |build.url| && t[|t| - 1] == '\n' && t[|t| - 1 - |build.url| .. |t| - 1] == build.url
  {
    var t := Formatter(build).text;
    var head := Status(build) + " " + Phase(build) + " " + build.builderName + " at " + build.branchProperty.0 + " : ";
    assert t == head + build.url + "\n";
    assert t[|head| .. |head| + |build.url|] == build.url;
  }

  /** When the builder name, the branch and the url hold no newline, the
      text's final newline is its only one: the post is a single line. */
  lemma FormatterSingleLine(build: Build)
    requires '\n' !in build.builderName && '\n' !in build.branchProperty.0 && '\n' !in build.url
    ensures var t := Formatter(build).text; forall i :: 0 <= i < |t| - 1 ==> t[i] != '\n'
  {
    var t := Formatter(build).text;
    var line := Status(build) + " " + Phase(build) + " " + build.builderName + " at " + build.branchProperty.0 + " : " + build.url;
    assert '\n' !in Status(build) && '\n' !in Phase(build);
    assert '\n' !in line;
    assert t == line + "\n";
    forall i | 0 <= i < |t| - 1
      ensures t[i] != '\n'
    {
      assert t[i] == line[i];
    }
  }
}
