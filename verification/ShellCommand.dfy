/**
  The docker run command that recreates a container, printed for a POSIX shell, and the two readers it
  has to survive: the shell's word splitting and docker's own option parsing.
 */
module ShellCommand {
  import opened Wrappers
  import opened Text

  /** What a deployment snapshot records about a container. */
  datatype Config = Config(
    containerName: string,
    env: seq<string>,
    portBindings: seq<string>,
    restartPolicy: string
  )

  // ---------- The printer ----------

  /** value.replace(/'/g, `'\\''`) */
  function EscapeQuotes(value: string): string {
    if value == [] then []
    else (if value[0] == '\'' then "'\\''" else [value[0]]) + EscapeQuotes(value[1..])
  }

  function ShellEscape(value: string): string {
    "'" + EscapeQuotes(value) + "'"
  }

  lemma {:induction false} NothingToEscape(value: string)
    requires '\'' !in value
    ensures EscapeQuotes(value) == value
  {
    if value != [] {
      NothingToEscape(value[1..]);
      assert [value[0]] + value[1..] == value;
    }
  }

  // ---------- The shell's reader ----------

  predicate IsBlank(c: char) {
    c == ' ' || c == '\t'
  }

  /** The characters of POSIX.1-2017, Shell Command Language, section 2.2, that mean something when unquoted. */
  predicate IsSpecial(c: char) {
    c in "|&;<>()$`\"*?[#~=%\n"
  }

  datatype Mode =
    | Between                 // no word started
    | Word(word: string)      // inside a word, not quoted
    | Quoted(word: string)    // inside single quotes

  function SoFar(mode: Mode): string {
    match mode
    case Between => []
    case Word(w) => w
    case Quoted(w) => w
  }

  /**
    Word splitting with the backslash and single-quote rules of sections 2.2.1, 2.2.2, 2.3 and 2.6.7:
    quotes are removed and the text they hold is taken literally. An unquoted special character,
    an unfinished quote or an unfinished escape is a failure, because the command would then not be a plain word list.
   */
  function Scan(s: string, mode: Mode): Option<seq<string>> {
    if s == [] then
      match mode
      case Between => Some([])
      case Word(w) => Some([w])
      case Quoted(_) => None
    else
      var c := s[0];
      match mode
      case Quoted(w) =>
        if c == '\'' then Scan(s[1..], Word(w)) else Scan(s[1..], Quoted(w + [c]))
      case _ =>
        var w := SoFar(mode);
        if IsBlank(c) then
          match Scan(s[1..], Between)
          case None => None
          case Some(words) => Some((if mode.Word? then [w] else []) + words)
        else if c == '\'' then Scan(s[1..], Quoted(w))
        else if c == '\\' then
          if |s| == 1 then None
          else if s[1] == '\n' then Scan(s[2..], mode)
          else Scan(s[2..], Word(w + [s[1]]))
        else if IsSpecial(c) then None
        else Scan(s[1..], Word(w + [c]))
  }

  function Split(s: string): Option<seq<string>> {
    Scan(s, Between)
  }

  /** The text reads as the single word `value`, whatever follows it. */
  ghost predicate Denotes(text: string, value: string) {
    forall tail: string :: Scan(text + tail, Between) == Scan(tail, Word(value))
  }

  /** Inside quotes, an escaped quote stands for a quote. */
  lemma EscapedQuoteReads(w: string, rest: string)
    ensures Scan("'\\''" + rest, Quoted(w)) == Scan(rest, Quoted(w + ['\'']))
  {
    var t0 := "'\\''" + rest;
    var t1 := "\\''" + rest;
    var t2 := "'" + rest;
    assert t0[0] == '\'' && t0[1..] == t1;
    assert t1[0] == '\\' && t1[1] == '\'' && t1[2..] == t2;
    assert t2[0] == '\'' && t2[1..] == rest;
    assert Scan(t0, Quoted(w)) == Scan(t1, Word(w));
    assert Scan(t1, Word(w)) == Scan(t2, Word(w + ['\'']));
  }

  lemma {:induction false} EscapedBodyReads(value: string, w: string, tail: string)
    ensures Scan(EscapeQuotes(value) + "'" + tail, Quoted(w)) == Scan(tail, Word(w + value))
  {
    var text := EscapeQuotes(value) + "'" + tail;
    if value == [] {
      assert text == "'" + tail;
      assert text[1..] == tail;
      assert w + value == w;
    } else {
      var rest := EscapeQuotes(value[1..]) + "'" + tail;
      EscapedBodyReads(value[1..], w + [value[0]], tail);
      assert w + [value[0]] + value[1..] == w + value;
      if value[0] == '\'' {
        assert text == "'\\''" + rest;
        EscapedQuoteReads(w, rest);
      } else {
        assert text == [value[0]] + rest;
        assert text[1..] == rest;
      }
    }
  }

  /** Quoting any value at all, quotes and newlines included, gives text that the shell reads as that value. */
  lemma EscapedReads(value: string)
    ensures Denotes(ShellEscape(value), value)
  {
    forall tail: string
      ensures Scan(ShellEscape(value) + tail, Between) == Scan(tail, Word(value))
    {
      EscapedBodyReads(value, [], tail);
      assert [] + value == value;
      assert (ShellEscape(value) + tail)[1..] == EscapeQuotes(value) + "'" + tail;
    }
  }

  predicate IsPlain(s: string) {
    forall c :: c in s ==> !IsBlank(c) && !IsSpecial(c) && c != '\'' && c != '\\'
  }

  lemma {:induction false} PlainReadsFrom(s: string, w: string, tail: string)
    requires IsPlain(s)
    ensures Scan(s + tail, Word(w)) == Scan(tail, Word(w + s))
  {
    if s == [] {
      assert s + tail == tail && w + s == w;
    } else {
      assert s[0] in s;
      assert (s + tail)[1..] == s[1..] + tail;
      PlainReadsFrom(s[1..], w + [s[0]], tail);
      assert w + [s[0]] + s[1..] == w + s;
    }
  }

  lemma PlainReads(s: string)
    requires s != [] && IsPlain(s)
    ensures Denotes(s, s)
  {
    forall tail: string
      ensures Scan(s + tail, Between) == Scan(tail, Word(s))
    {
      assert s[0] in s;
      assert (s + tail)[1..] == s[1..] + tail;
      PlainReadsFrom(s[1..], [s[0]], tail);
      assert [s[0]] + s[1..] == s;
      assert [] + [s[0]] == [s[0]];
      assert !IsBlank((s + tail)[0]) && !IsSpecial((s + tail)[0]);
    }
  }

  ghost predicate AllDenote(parts: seq<string>, values: seq<string>) {
    |parts| == |values| && forall i :: 0 <= i < |parts| ==> Denotes(parts[i], values[i])
  }

  lemma {:induction false} JoinedReads(parts: seq<string>, values: seq<string>)
    requires AllDenote(parts, values) && parts != []
    ensures Split(Join(parts, " ")) == Some(values)
  {
    assert Denotes(parts[0], values[0]);
    if |parts| == 1 {
      assert parts[0] + [] == parts[0];
      assert Scan(parts[0] + [], Between) == Scan([], Word(values[0]));
      assert values == [values[0]];
    } else {
      JoinedReads(parts[1..], values[1..]);
      var tail := " " + Join(parts[1..], " ");
      assert parts[0] + " " + Join(parts[1..], " ") == parts[0] + tail;
      assert tail[1..] == Join(parts[1..], " ");
      assert values == [values[0]] + values[1..];
    }
  }

  lemma AllDenoteConcat(p1: seq<string>, v1: seq<string>, p2: seq<string>, v2: seq<string>)
    requires AllDenote(p1, v1) && AllDenote(p2, v2)
    ensures AllDenote(p1 + p2, v1 + v2)
  {
  }

  // ---------- A value without quotes ----------

  lemma PlainIff(s: string)
    requires s != []
    ensures IsPlain(s) <==> !IsBlank(s[0]) && !IsSpecial(s[0]) && s[0] != '\'' && s[0] != '\\' && IsPlain(s[1..])
  {
    hide IsSpecial;
    assert s[0] in s;
    assert forall c :: c in s <==> c == s[0] || c in s[1..];
  }

  /**
    Splitting never makes text longer, and makes it shorter unless every character is plain: blanks, quotes and
    backslashes are lost.
   */
  lemma {:induction false} ScanIsShorter(s: string, mode: Mode)
    ensures Scan(s, mode).Some? ==> |Concat(Scan(s, mode).value)| <= |SoFar(mode)| + |s|
    ensures Scan(s, mode).Some? && (mode.Quoted? || !IsPlain(s)) ==>
              |Concat(Scan(s, mode).value)| < |SoFar(mode)| + |s|
    decreases |s|
  {
    if s != [] {
      var c, rest := s[0], s[1..];
      PlainIff(s);
      hide IsPlain, IsSpecial;
      if mode.Quoted? {
        ScanIsShorter(rest, if c == '\'' then Word(mode.word) else Quoted(mode.word + [c]));
      } else if IsBlank(c) {
        ScanIsShorter(rest, Between);
        if Scan(s, mode).Some? {
          BlankEndsWord(s, mode);
        }
      } else if c == '\'' {
        ScanIsShorter(rest, Quoted(SoFar(mode)));
      } else if c == '\\' {
        if |s| > 1 {
          ScanIsShorter(s[2..], if s[1] == '\n' then mode else Word(SoFar(mode) + [s[1]]));
        }
      } else if !IsSpecial(c) {
        ScanIsShorter(rest, Word(SoFar(mode) + [c]));
      }
    } else if mode.Word? {
      assert Concat([mode.word]) == mode.word + Concat([mode.word][1..]);
    }
  }

  lemma BlankEndsWord(s: string, mode: Mode)
    requires s != [] && IsBlank(s[0]) && !mode.Quoted? && Scan(s, mode).Some?
    ensures Scan(s[1..], Between).Some?
    ensures |Concat(Scan(s, mode).value)| == |SoFar(mode)| + |Concat(Scan(s[1..], Between).value)|
  {
    var words := Scan(s[1..], Between).value;
    assert [] + words == words;
    assert ([SoFar(mode)] + words)[1..] == words;
  }

  /** Text without quotes is read as itself, one word, exactly when it is not empty and every character is plain. */
  lemma UnquotedReadsIff(value: string)
    ensures Split(value) == Some([value]) <==> value != [] && IsPlain(value)
  {
    if value != [] && IsPlain(value) {
      PlainReads(value);
      assert value + [] == value;
      assert Scan(value + [], Between) == Scan([], Word(value));
    }
    ScanIsShorter(value, Between);
    assert Concat([value]) == value + Concat([value][1..]) == value;
  }

  /** The same for a value that is put after other plain words. */
  lemma {:induction false} LastWordReadsIff(words: seq<string>, value: string)
    requires forall w :: w in words ==> w != [] && IsPlain(w)
    ensures Split(Join(words + [value], " ")) == Some(words + [value]) <==> value != [] && IsPlain(value)
  {
    if words == [] {
      assert words + [value] == [value];
      UnquotedReadsIff(value);
    } else {
      assert words[0] in words;
      assert forall w :: w in words[1..] ==> w in words;
      LastWordReadsIff(words[1..], value);
      FirstWordReads(words[0], words[1..] + [value]);
      assert words + [value] == [words[0]] + (words[1..] + [value]);
    }
  }

  lemma FirstWordReads(word: string, rest: seq<string>)
    requires word != [] && IsPlain(word) && rest != []
    ensures Split(Join([word] + rest, " ")) == Some([word] + rest) <==> Split(Join(rest, " ")) == Some(rest)
  {
    PlainReads(word);
    var tail := " " + Join(rest, " ");
    assert ([word] + rest)[1..] == rest;
    assert word + " " + Join(rest, " ") == word + tail;
    assert tail[1..] == Join(rest, " ");
    assert forall words: seq<string> :: ([word] + words)[1..] == words;
    assert Scan(word + tail, Between) == Scan(tail, Word(word));
  }

  lemma ThirdWordReadsIff(first: string, second: string, value: string)
    requires first != [] && IsPlain(first) && second != [] && IsPlain(second)
    ensures Split(first + " " + second + " " + value) == Some([first, second, value]) <==> value != [] && IsPlain(value)
  {
    LastWordReadsIff([first, second], value);
    assert [first, second] + [value] == [first, second, value];
    assert [first, second, value][1..] == [second, value] && [second, value][1..] == [value];
    assert Join([first, second, value], " ") == first + " " + Join([second, value], " ");
    assert Join([second, value], " ") == second + " " + Join([value], " ");
    assert first + " " + (second + " " + value) == first + " " + second + " " + value;
    hide Split, IsPlain, Join;
  }

  // ---------- The argument list ----------

  /** Each value preceded by the option that takes it. */
  function Flagged(option: string, values: seq<string>): seq<string> {
    if values == [] then [] else [option, values[0]] + Flagged(option, values[1..])
  }

  function Restart(policy: string): seq<string> {
    if policy == [] then [] else ["--restart", policy]
  }

  /** The words docker is meant to receive. */
  function Argv(config: Config, imageTag: string): seq<string> {
    ["docker", "run", "-d", "--name"] + [config.containerName]
    + Flagged("-p", config.portBindings)
    + Flagged("-e", config.env)
    + Restart(config.restartPolicy)
    + [imageTag]
  }

  function EscapeAll(values: seq<string>): (r: seq<string>)
    ensures |r| == |values| && forall i :: 0 <= i < |values| ==> r[i] == ShellEscape(values[i])
  {
    seq(|values|, i requires 0 <= i < |values| => ShellEscape(values[i]))
  }

  /** The pieces that are joined by spaces: the same words, with every value quoted. */
  function Parts(config: Config, imageTag: string): (r: seq<string>)
    ensures r != []
  {
    ["docker", "run", "-d", "--name"] + [ShellEscape(config.containerName)]
    + Flagged("-p", EscapeAll(config.portBindings))
    + Flagged("-e", EscapeAll(config.env))
    + (if config.restartPolicy == [] then [] else ["--restart", ShellEscape(config.restartPolicy)])
    + [ShellEscape(imageTag)]
  }

  function CommandText(config: Config, imageTag: string): string {
    Join(Parts(config, imageTag), " ")
  }

  lemma OneEscapedDenotes(value: string)
    ensures AllDenote([ShellEscape(value)], [value])
  {
    EscapedReads(value);
  }

  lemma {:induction false} FlaggedDenotes(option: string, values: seq<string>)
    requires option != [] && IsPlain(option)
    ensures AllDenote(Flagged(option, EscapeAll(values)), Flagged(option, values))
  {
    if values != [] {
      PlainReads(option);
      EscapedReads(values[0]);
      FlaggedDenotes(option, values[1..]);
      assert EscapeAll(values)[1..] == EscapeAll(values[1..]);
      AllDenoteConcat([option, ShellEscape(values[0])], [option, values[0]],
                      Flagged(option, EscapeAll(values[1..])), Flagged(option, values[1..]));
    }
  }

  lemma DockerReads()
    ensures Denotes("docker", "docker")
  {
    PlainReads("docker");
  }

  lemma RunReads()
    ensures Denotes("run", "run")
  {
    PlainReads("run");
  }

  lemma DetachedReads()
    ensures Denotes("-d", "-d")
  {
    PlainReads("-d");
  }

  lemma NameReads()
    ensures Denotes("--name", "--name")
  {
    PlainReads("--name");
  }

  lemma HeadDenotes()
    ensures AllDenote(["docker", "run", "-d", "--name"], ["docker", "run", "-d", "--name"])
  {
    hide Denotes;
    DockerReads();
    RunReads();
    DetachedReads();
    NameReads();
  }

  lemma RestartDenotes(policy: string)
    ensures AllDenote(if policy == [] then [] else ["--restart", ShellEscape(policy)], Restart(policy))
  {
    PlainReads("--restart");
    EscapedReads(policy);
  }

  /**
    For every configuration and image, of any characters, the shell splits the command into exactly the
    intended words: no value is cut, merged, expanded or altered, and no unquoted special character is met.
   */
  lemma CommandSplits(config: Config, imageTag: string)
    ensures Split(CommandText(config, imageTag)) == Some(Argv(config, imageTag))
  {
    var head := ["docker", "run", "-d", "--name"];
    var restart := if config.restartPolicy == [] then [] else ["--restart", ShellEscape(config.restartPolicy)];
    var ports, env := Flagged("-p", EscapeAll(config.portBindings)), Flagged("-e", EscapeAll(config.env));
    var ports', env' := Flagged("-p", config.portBindings), Flagged("-e", config.env);
    var name, name' := [ShellEscape(config.containerName)], [config.containerName];
    HeadDenotes();
    OneEscapedDenotes(config.containerName);
    FlaggedDenotes("-p", config.portBindings);
    FlaggedDenotes("-e", config.env);
    RestartDenotes(config.restartPolicy);
    OneEscapedDenotes(imageTag);
    AllDenoteConcat(head, head, name, name');
    AllDenoteConcat(head + name, head + name', ports, ports');
    AllDenoteConcat(head + name + ports, head + name' + ports', env, env');
    AllDenoteConcat(head + name + ports + env, head + name' + ports' + env', restart, Restart(config.restartPolicy));
    AllDenoteConcat(head + name + ports + env + restart, head + name' + ports' + env' + Restart(config.restartPolicy),
                    [ShellEscape(imageTag)], [imageTag]);
    JoinedReads(Parts(config, imageTag), Argv(config, imageTag));
  }

  lemma {:induction false} FlaggedSnoc(option: string, values: seq<string>, v: string)
    ensures Flagged(option, values + [v]) == Flagged(option, values) + [option, v]
  {
    if values == [] {
      assert values + [v] == [v];
    } else {
      FlaggedSnoc(option, values[1..], v);
      assert (values + [v])[1..] == values[1..] + [v];
    }
  }

  lemma EscapedPrefixGrows(option: string, values: seq<string>, i: nat)
    requires i < |values|
    ensures Flagged(option, EscapeAll(values[..i + 1]))
         == Flagged(option, EscapeAll(values[..i])) + [option, ShellEscape(values[i])]
  {
    FlaggedSnoc(option, EscapeAll(values[..i]), ShellEscape(values[i]));
    assert EscapeAll(values[..i + 1]) == EscapeAll(values[..i]) + [ShellEscape(values[i])];
  }

  /** Pushes the words one by one and joins them; the shell reads the result back as the intended words. */
  method BuildDockerRunCommand(config: Config, imageTag: string) returns (command: string)
    ensures command == CommandText(config, imageTag)
    ensures Split(command) == Some(Argv(config, imageTag))
  {
    var parts := ["docker", "run", "-d", "--name"] + [ShellEscape(config.containerName)];

    ghost var start := parts;
    for i := 0 to |config.portBindings|
      invariant parts == start + Flagged("-p", EscapeAll(config.portBindings[..i]))
    {
      EscapedPrefixGrows("-p", config.portBindings, i);
      parts := parts + ["-p", ShellEscape(config.portBindings[i])];
    }
    assert config.portBindings[..|config.portBindings|] == config.portBindings;

    ghost var middle := parts;
    for i := 0 to |config.env|
      invariant parts == middle + Flagged("-e", EscapeAll(config.env[..i]))
    {
      EscapedPrefixGrows("-e", config.env, i);
      parts := parts + ["-e", ShellEscape(config.env[i])];
    }
    assert config.env[..|config.env|] == config.env;

    ghost var flagged := parts;
    if config.restartPolicy != [] {
      parts := parts + ["--restart", ShellEscape(config.restartPolicy)];
    }
    var restart := if config.restartPolicy == [] then [] else ["--restart", ShellEscape(config.restartPolicy)];
    assert parts == flagged + restart;

    parts := parts + [ShellEscape(imageTag)];
    assert parts == Parts(config, imageTag);
    CommandSplits(config, imageTag);
    command := Join(parts, " ");
  }

  // ---------- Docker's reader ----------

  datatype Invocation = Invocation(config: Config, imageTag: string, arguments: seq<string>)

  /** A word docker takes for an option: it starts with a dash and is more than the dash. */
  predicate LooksLikeOption(word: string) {
    |word| >= 2 && word[0] == '-'
  }

  /**
    Reads the words after `docker run`: options come first, an option's value is the next word whatever it
    looks like, the first other word is the image and the rest are the container's arguments.
   */
  function ReadOptions(words: seq<string>, config: Config): Option<Invocation>
    decreases |words|
  {
    if words == [] then None
    else if !LooksLikeOption(words[0]) then Some(Invocation(config, words[0], words[1..]))
    else if words[0] == "-d" then ReadOptions(words[1..], config)
    else if |words| == 1 then None
    else if words[0] == "--name" then ReadOptions(words[2..], config.(containerName := words[1]))
    else if words[0] == "-p" then ReadOptions(words[2..], config.(portBindings := config.portBindings + [words[1]]))
    else if words[0] == "-e" then ReadOptions(words[2..], config.(env := config.env + [words[1]]))
    else if words[0] == "--restart" then ReadOptions(words[2..], config.(restartPolicy := words[1]))
    else None
  }

  function ReadDockerRun(words: seq<string>): Option<Invocation> {
    if |words| >= 2 && words[0] == "docker" && words[1] == "run"
    then ReadOptions(words[2..], Config([], [], [], []))
    else None
  }

  lemma {:induction false} ReadPorts(ports: seq<string>, tail: seq<string>, c: Config)
    ensures ReadOptions(Flagged("-p", ports) + tail, c)
         == ReadOptions(tail, c.(portBindings := c.portBindings + ports))
  {
    if ports == [] {
      assert Flagged("-p", ports) + tail == tail && c.portBindings + ports == c.portBindings;
    } else {
      var words := Flagged("-p", ports) + tail;
      assert words[2..] == Flagged("-p", ports[1..]) + tail;
      ReadPorts(ports[1..], tail, c.(portBindings := c.portBindings + [ports[0]]));
      assert c.portBindings + [ports[0]] + ports[1..] == c.portBindings + ports;
    }
  }

  lemma {:induction false} ReadEnv(env: seq<string>, tail: seq<string>, c: Config)
    ensures ReadOptions(Flagged("-e", env) + tail, c) == ReadOptions(tail, c.(env := c.env + env))
  {
    if env == [] {
      assert Flagged("-e", env) + tail == tail && c.env + env == c.env;
    } else {
      var words := Flagged("-e", env) + tail;
      assert words[2..] == Flagged("-e", env[1..]) + tail;
      ReadEnv(env[1..], tail, c.(env := c.env + [env[0]]));
      assert c.env + [env[0]] + env[1..] == c.env + env;
    }
  }

  lemma ReadRestart(policy: string, tail: seq<string>, c: Config)
    requires c.restartPolicy == []
    ensures ReadOptions(Restart(policy) + tail, c) == ReadOptions(tail, c.(restartPolicy := policy))
  {
    if policy == [] {
      assert Restart(policy) + tail == tail;
    } else {
      assert (Restart(policy) + tail)[2..] == tail;
    }
  }

  /** All options are consumed in order, leaving docker with the image word and the configuration. */
  lemma ReadUpToImage(config: Config, imageTag: string)
    ensures ReadDockerRun(Argv(config, imageTag)) == ReadOptions([imageTag], config)
  {
    var c0 := Config([], [], [], []);
    var c1 := c0.(containerName := config.containerName);
    var c2 := c1.(portBindings := config.portBindings);
    var c3 := c2.(env := config.env);
    var t3 := Restart(config.restartPolicy) + [imageTag];
    var t2 := Flagged("-e", config.env) + t3;
    var t1 := Flagged("-p", config.portBindings) + t2;
    var words := Argv(config, imageTag);
    var w2 := ["--name", config.containerName] + t1;
    var w1 := ["-d"] + w2;
    assert words[2..] == w1;
    assert w1[1..] == w2 && w2[2..] == t1;
    assert ReadOptions(w1, c0) == ReadOptions(w2, c0) == ReadOptions(t1, c1);
    assert [] + config.portBindings == config.portBindings;
    assert [] + config.env == config.env;
    ReadPorts(config.portBindings, t2, c1);
    ReadEnv(config.env, t3, c2);
    ReadRestart(config.restartPolicy, [imageTag], c3);
  }

  /**
    Docker reads back the very configuration and image that were printed exactly when the image does not
    look like an option. No other field is restricted: an option's value may be any text.
   */
  lemma DockerReadsBack(config: Config, imageTag: string)
    ensures ReadDockerRun(Argv(config, imageTag)) == Some(Invocation(config, imageTag, []))
       <==> !LooksLikeOption(imageTag)
  {
    ReadUpToImage(config, imageTag);
    assert [imageTag][1..] == [];
  }

  /** An image that looks like an option leaves docker without an image: nothing is run. */
  lemma OptionLikeImageRejected(config: Config, imageTag: string)
    requires LooksLikeOption(imageTag)
    ensures ReadDockerRun(Argv(config, imageTag)) == None
  {
    ReadUpToImage(config, imageTag);
    assert [imageTag][1..] == [];
  }

  // ---------- Reading by position ----------

  /** The values of a run of `option value` pairs and what is left after it, never touching the last word. */
  function TakeFlagged(option: string, words: seq<string>): (seq<string>, seq<string>) {
    if |words| >= 3 && words[0] == option then
      var (values, rest) := TakeFlagged(option, words[2..]);
      ([words[1]] + values, rest)
    else ([], words)
  }

  lemma {:induction false} TakeFlaggedReads(option: string, values: seq<string>, tail: seq<string>)
    requires |tail| >= 1
    requires |tail| >= 3 ==> tail[0] != option
    ensures TakeFlagged(option, Flagged(option, values) + tail) == (values, tail)
  {
    var words := Flagged(option, values) + tail;
    if values == [] {
      assert words == tail;
    } else {
      assert words[2..] == Flagged(option, values[1..]) + tail;
      TakeFlaggedReads(option, values[1..], tail);
      assert [values[0]] + values[1..] == values;
    }
  }

  /** Reads a word list of the printed layout, in which the last word is the image. */
  function ReadLayout(words: seq<string>): Option<(Config, string)> {
    if |words| < 6 || words[..4] != ["docker", "run", "-d", "--name"] then None
    else
      var (ports, afterPorts) := TakeFlagged("-p", words[5..]);
      var (env, afterEnv) := TakeFlagged("-e", afterPorts);
      match |afterEnv|
      case 1 => Some((Config(words[4], env, ports, []), afterEnv[0]))
      case 3 =>
        if afterEnv[0] == "--restart" && afterEnv[1] != []
        then Some((Config(words[4], env, ports, afterEnv[1]), afterEnv[2]))
        else None
      case _ => None
  }

  /** What follows the ports in the word list. */
  function AfterPorts(config: Config, imageTag: string): seq<string> {
    Flagged("-e", config.env) + AfterEnv(config, imageTag)
  }

  function AfterEnv(config: Config, imageTag: string): seq<string> {
    Restart(config.restartPolicy) + [imageTag]
  }

  lemma LayoutOf(config: Config, imageTag: string)
    ensures var words := Argv(config, imageTag);
            && |words| >= 6 && words[..4] == ["docker", "run", "-d", "--name"] && words[4] == config.containerName
            && words[5..] == Flagged("-p", config.portBindings) + AfterPorts(config, imageTag)
  {
  }

  lemma AfterPortsStart(config: Config, imageTag: string)
    ensures |AfterPorts(config, imageTag)| >= 1 && |AfterEnv(config, imageTag)| >= 1
    ensures |AfterPorts(config, imageTag)| >= 3 ==> AfterPorts(config, imageTag)[0] != "-p"
    ensures |AfterEnv(config, imageTag)| >= 3 ==> AfterEnv(config, imageTag)[0] != "-e"
  {
  }

  lemma FlagsReadBack(config: Config, imageTag: string)
    ensures TakeFlagged("-p", Flagged("-p", config.portBindings) + AfterPorts(config, imageTag))
         == (config.portBindings, AfterPorts(config, imageTag))
    ensures TakeFlagged("-e", AfterPorts(config, imageTag)) == (config.env, AfterEnv(config, imageTag))
  {
    AfterPortsStart(config, imageTag);
    hide TakeFlagged, Flagged, AfterEnv;
    TakeFlaggedReads("-e", config.env, AfterEnv(config, imageTag));
    TakeFlaggedReads("-p", config.portBindings, AfterPorts(config, imageTag));
  }

  /** By position every configuration and every image is recovered, without exception. */
  lemma LayoutReadsBack(config: Config, imageTag: string)
    ensures ReadLayout(Argv(config, imageTag)) == Some((config, imageTag))
  {
    LayoutOf(config, imageTag);
    FlagsReadBack(config, imageTag);
    hide Argv, TakeFlagged, Flagged, AfterPorts;
  }

  /** The printed text determines the configuration and the image: two different ones never print alike. */
  lemma CommandTextInjective(c1: Config, i1: string, c2: Config, i2: string)
    requires CommandText(c1, i1) == CommandText(c2, i2)
    ensures c1 == c2 && i1 == i2
  {
    CommandSplits(c1, i1);
    CommandSplits(c2, i2);
    LayoutReadsBack(c1, i1);
    LayoutReadsBack(c2, i2);
  }
}
