/**
 * The save-metadata adapter: scene pairs taken from the chat log, three
 * summarising LLM calls over windows of those pairs, the record they fill,
 * and the name of the companion file it is saved under.
 */
module SaveMetadata {
  import opened PyText
  import opened Narrative

  type ScenePair = (string, string)

  /** Python `chat_messages[1:]`: the welcome message is skipped (an empty log stays empty). */
  function AfterWelcome(chat: seq<Message>): (rest: seq<Message>)
    ensures |rest| == if |chat| == 0 then 0 else |chat| - 1
  {
    if |chat| == 0 then [] else chat[1..]
  }

  /** The `content` of every message, in order. */
  function Contents(messages: seq<Message>): (cs: seq<string>)
    ensures |cs| == |messages|
    ensures forall i :: 0 <= i < |messages| ==> cs[i] == messages[i].content
  {
    if |messages| == 0 then [] else [messages[0].content] + Contents(messages[1..])
  }

  /** Consecutive texts paired up in order, a trailing odd one dropped. */
  function PairUp(cs: seq<string>): (pairs: seq<ScenePair>)
    ensures |pairs| == |cs| / 2
    ensures forall i :: 0 <= i < |pairs| ==> pairs[i] == (cs[2 * i], cs[2 * i + 1])
  {
    if |cs| < 2 then [] else [(cs[0], cs[1])] + PairUp(cs[2..])
  }

  /** The index loop of `generate_metadata` that collects `(action, scene)` pairs. */
  method ScenePairs(chat: seq<Message>) returns (pairs: seq<ScenePair>)
    ensures pairs == PairUp(Contents(AfterWelcome(chat)))
  {
    var messages := AfterWelcome(chat);
    pairs := [];
    var i := 0;
    while i < |messages| - 1
      invariant 0 <= i <= |messages| && i % 2 == 0
      invariant |pairs| == i / 2
      invariant forall j :: 0 <= j < |pairs| ==> pairs[j] == (messages[2 * j].content, messages[2 * j + 1].content)
    {
      if i + 1 < |messages| {
        pairs := pairs + [(messages[i].content, messages[i + 1].content)];
      }
      i := i + 2;
    }
  }

  /** `p[-n:] if len(p) > n else p`: the last `n` pairs, or all of them. */
  function LastAtMost(p: seq<ScenePair>, n: nat): (w: seq<ScenePair>)
    ensures |w| == if |p| > n then n else |p|
    ensures w == p[|p| - |w|..]
  {
    if |p| > n then p[|p| - n..] else p
  }

  /** `p[:n]`. */
  function FirstAtMost(p: seq<ScenePair>, n: nat): (w: seq<ScenePair>)
    ensures |w| == if |p| > n then n else |p|
    ensures w == p[..|w|]
  {
    if |p| > n then p[..n] else p
  }

  /** The four lines one pair contributes to the prompt context. */
  function SceneBlock(pair: ScenePair, number: nat): seq<string> {
    ["Scene " + NatToString(number) + ":", "Action: " + pair.0, "Result: " + pair.1, ""]
  }

  /** The lines of `_format_scenes`, numbering from `first`. */
  function SceneLines(pairs: seq<ScenePair>, first: nat): (lines: seq<string>)
    decreases |pairs|
    ensures |lines| == 4 * |pairs|
  {
    if |pairs| == 0 then []
    else SceneBlock(pairs[0], first) + SceneLines(pairs[1..], first + 1)
  }

  /** Block `i` of the lines is pair `i`, numbered `first + i`. */
  lemma {:induction false} SceneLinesBlocks(pairs: seq<ScenePair>, first: nat)
    decreases |pairs|
    ensures forall i :: 0 <= i < |pairs| ==> SceneLines(pairs, first)[4 * i..4 * i + 4] == SceneBlock(pairs[i], first + i)
  {
    if |pairs| > 0 {
      var rest := SceneLines(pairs[1..], first + 1);
      var lines := SceneLines(pairs, first);
      SceneLinesBlocks(pairs[1..], first + 1);
      assert lines == SceneBlock(pairs[0], first) + rest;
      assert lines[..4] == SceneBlock(pairs[0], first);
      forall i | 1 <= i < |pairs|
        ensures lines[4 * i..4 * i + 4] == SceneBlock(pairs[i], first + i)
      {
        assert lines[4 * i..4 * i + 4] == rest[4 * (i - 1)..4 * (i - 1) + 4];
        assert pairs[1..][i - 1] == pairs[i];
      }
    }
  }

  lemma {:induction false} SceneLinesSnoc(pairs: seq<ScenePair>, pair: ScenePair, first: nat)
    decreases |pairs|
    ensures SceneLines(pairs + [pair], first) == SceneLines(pairs, first) + SceneBlock(pair, first + |pairs|)
  {
    var ps := pairs + [pair];
    if |pairs| == 0 {
      assert ps[1..] == [];
      assert SceneLines(ps, first) == SceneBlock(pair, first) + SceneLines([], first + 1);
    } else {
      assert ps[0] == pairs[0];
      assert ps[1..] == pairs[1..] + [pair];
      SceneLinesSnoc(pairs[1..], pair, first + 1);
      var head := SceneBlock(pairs[0], first);
      assert SceneLines(ps, first) == head + SceneLines(ps[1..], first + 1);
      assert SceneLines(ps[1..], first + 1) == SceneLines(pairs[1..], first + 1) + SceneBlock(pair, first + |pairs|);
      assert SceneLines(pairs, first) == head + SceneLines(pairs[1..], first + 1);
    }
  }

  /** `_format_scenes`: the blocks numbered from 1, joined by newlines. */
  method FormatScenes(pairs: seq<ScenePair>) returns (text: string)
    ensures text == Join(SceneLines(pairs, 1), "\n")
  {
    var formatted: seq<string> := [];
    var k := 0;
    while k < |pairs|
      invariant 0 <= k <= |pairs|
      invariant formatted == SceneLines(pairs[..k], 1)
    {
      SceneLinesSnoc(pairs[..k], pairs[k], 1);
      assert pairs[..k + 1] == pairs[..k] + [pairs[k]];
      formatted := formatted + SceneBlock(pairs[k], k + 1);
      k := k + 1;
    }
    assert pairs[..k] == pairs;
    text := Join(formatted, "\n");
  }

  /** `_get_metadata_path`: the extension, if any, gives way to "_metadata.json". */
  function MetadataPath(savePath: string): (path: string)
    ensures path == SplitExt(savePath).0 + "_metadata.json"
  {
    var (base, _) := SplitExt(savePath);
    base + "_metadata.json"
  }

  /** The `SaveMetadata` dataclass. */
  datatype Metadata = Metadata(storyName: string, overallSummary: string, latestSummary: string, timestamp: string)

  const MetadataKeys: set<string> := {"story_name", "overall_summary", "latest_summary", "timestamp"}

  /** `SaveMetadata.to_dict`. */
  function ToDict(m: Metadata): (d: map<string, string>)
    ensures d.Keys == MetadataKeys
  {
    map["story_name" := m.storyName, "overall_summary" := m.overallSummary,
        "latest_summary" := m.latestSummary, "timestamp" := m.timestamp]
  }

  /** `SaveMetadata(**data)`: any missing or extra key is a `TypeError`, here `None`. */
  function FromDict(d: map<string, string>): (m: Option<Metadata>)
    ensures m.Some? <==> d.Keys == MetadataKeys
  {
    if d.Keys == MetadataKeys then
      Some(Metadata(d["story_name"], d["overall_summary"], d["latest_summary"], d["timestamp"]))
    else None
  }

  /** Writing a record and reading it back gives the same record. */
  lemma FromToDict(m: Metadata)
    ensures FromDict(ToDict(m)) == Some(m)
  {
  }

  /** A dictionary that reads back as a record is exactly that record's dictionary. */
  lemma ToFromDict(d: map<string, string>)
    requires FromDict(d).Some?
    ensures ToDict(FromDict(d).value) == d
  {
  }

  /** The three texts and the requests they came from, pure given the client and the oracle. */
  function MetadataOf(client: LlmClient, llm: Oracle, plot: string, pairs: seq<ScenePair>, timestamp: string): Result<Metadata> {
    var nameRequest := Request(client, StoryNamePrompt(plot, Join(SceneLines(LastAtMost(pairs, 5), 1), "\n")), None);
    var overallRequest := Request(client, OverallSummaryPrompt(plot, Join(SceneLines(FirstAtMost(pairs, 10), 1), "\n")), None);
    var latestRequest := Request(client, LatestSummaryPrompt(Join(SceneLines(LastAtMost(pairs, 3), 1), "\n")), None);
    Assemble(llm(nameRequest), llm(overallRequest), llm(latestRequest), timestamp)
  }

  /** The record built from the three replies, in call order; the first failure is raised. */
  function Assemble(name: Reply, overall: Reply, latest: Reply, timestamp: string): Result<Metadata> {
    if name.Failed? then Err(name.error)
    else if overall.Failed? then Err(overall.error)
    else if latest.Failed? then Err(latest.error)
    else Ok(Metadata(Strip(name.text), Strip(overall.text), Strip(latest.text), timestamp))
  }

  /**
   * The object passed as `save_dir`: a path string, or any other object,
   * named by its Python class.
   */
  datatype SaveDirArg = PathArg(path: string) | ObjectArg(className: string)

  const StatTypeError := "stat: path should be string, bytes, os.PathLike or integer, not "

  /**
   * `os.path.exists(save_dir)` as far as it can fail: `os.stat` rejects an
   * object that is not a path with a `TypeError`, which `exists` does not
   * catch. A path yields itself.
   */
  function CheckedSaveDir(arg: SaveDirArg): (r: Result<string>)
    ensures r.Ok? <==> arg.PathArg?
    ensures r.Ok? ==> r.value == arg.path
    ensures r.Err? ==> r.error.TypeError?
    ensures r.Err? ==> var text := ErrorText(r.error);
              |text| >= |arg.className| && text[|text| - |arg.className|..] == arg.className
  {
    match arg
    case PathArg(path) => Ok(path)
    case ObjectArg(name) => Err(TypeError(StatTypeError + name))
  }

  /**
   * `SaveMetadataAdapter(save_dir)`: construction fails on a `save_dir` that
   * is not a path; otherwise the adapter starts without a client.
   */
  method NewMetadataAdapter(saveDir: SaveDirArg) returns (r: Result<MetadataAdapter>)
    ensures r.Ok? <==> saveDir.PathArg?
    ensures r.Err? ==> r.error == CheckedSaveDir(saveDir).error
    ensures r.Ok? ==> fresh(r.value) && r.value.saveDir == saveDir.path && r.value.llm == None
  {
    var dir := CheckedSaveDir(saveDir);
    if dir.Err? {
      return Err(dir.error);
    }
    var adapter := new MetadataAdapter(dir.value);
    r := Ok(adapter);
  }

  /** `SaveMetadataAdapter` with its per-instance LLM cache. */
  class MetadataAdapter {
    const saveDir: string
    var llm: Option<LlmClient>

    constructor (saveDir: string)
      ensures this.saveDir == saveDir && llm == None
    {
      this.saveDir := saveDir;
      llm := None;
    }

    /** `_initialize_llm`: dispatch on the call's own config, once. */
    method InitializeLlm(config: Config) returns (r: Result<LlmClient>)
      modifies this
      ensures r == ClientFor(old(llm), config, false)
      ensures llm == if r.Ok? then Some(r.value) else old(llm)
    {
      if llm.None? {
        r := Dispatch(config, false);
        if r.Ok? {
          llm := Some(r.value);
        }
      } else {
        r := Ok(llm.value);
      }
    }

    /** The three summary calls of `generate_metadata`, in order; the first failure is raised. */
    static method SummarisePairs(client: LlmClient, oracle: Oracle, plot: string, pairs: seq<ScenePair>, timestamp: string)
      returns (r: Result<Metadata>)
      ensures r == MetadataOf(client, oracle, plot, pairs, timestamp)
    {
      var recent := FormatScenes(LastAtMost(pairs, 5));
      var nameReply := oracle(Request(client, StoryNamePrompt(plot, recent), None));
      if nameReply.Failed? {
        return Err(nameReply.error);
      }
      var all := FormatScenes(FirstAtMost(pairs, 10));
      var overallReply := oracle(Request(client, OverallSummaryPrompt(plot, all), None));
      if overallReply.Failed? {
        return Err(overallReply.error);
      }
      var latest := FormatScenes(LastAtMost(pairs, 3));
      var latestReply := oracle(Request(client, LatestSummaryPrompt(latest), None));
      if latestReply.Failed? {
        return Err(latestReply.error);
      }
      r := Ok(Metadata(Strip(nameReply.text), Strip(overallReply.text), Strip(latestReply.text), timestamp));
    }

    /** `generate_metadata`: a client error or a failed call propagates. */
    method GenerateMetadata(plot: string, chat: seq<Message>, config: Option<Config>, oracle: Oracle, timestamp: string)
      returns (r: Result<Metadata>)
      modifies this
      ensures var client := ClientFor(old(llm), ConfigOrEmpty(config), false);
              && llm == (if client.Ok? then Some(client.value) else old(llm))
              && r == match client
                      case Err(e) => Err(e)
                      case Ok(c) => MetadataOf(c, oracle, plot, PairUp(Contents(AfterWelcome(chat))), timestamp)
    {
      var client := InitializeLlm(ConfigOrEmpty(config));
      if client.Err? {
        return Err(client.error);
      }
      var pairs := ScenePairs(chat);
      r := SummarisePairs(client.value, oracle, plot, pairs, timestamp);
    }
  }

  // ---------------------------------------------------------------------
  // Properties

  /** Every stored text is whitespace-stripped: stripping it again changes nothing. */
  lemma GeneratedTextsStripped(name: Reply, overall: Reply, latest: Reply, timestamp: string)
    requires Assemble(name, overall, latest, timestamp).Ok?
    ensures var m := Assemble(name, overall, latest, timestamp).value;
      && Strip(m.storyName) == m.storyName
      && Strip(m.overallSummary) == m.overallSummary
      && Strip(m.latestSummary) == m.latestSummary
      && m.timestamp == timestamp
  {
    StripIdempotent(name.text);
    StripIdempotent(overall.text);
    StripIdempotent(latest.text);
  }

  /** The pair count is half the messages after the welcome, rounded down. */
  lemma PairCount(chat: seq<Message>)
    ensures |PairUp(Contents(AfterWelcome(chat)))| == (if |chat| == 0 then 0 else |chat| - 1) / 2
  {
  }

  /** Each pair is an action message followed directly by its scene message. */
  lemma PairsFollowTheLog(chat: seq<Message>, i: nat)
    requires i < |PairUp(Contents(AfterWelcome(chat)))|
    ensures PairUp(Contents(AfterWelcome(chat)))[i] == (chat[2 * i + 1].content, chat[2 * i + 2].content)
  {
  }

  /** An empty list of pairs formats as the empty string. */
  lemma NoScenesFormatEmpty()
    ensures Join(SceneLines([], 1), "\n") == ""
  {
  }

  lemma JoinFour(a: string, b: string, c: string, d: string, sep: string)
    ensures Join([a, b, c, d], sep) == a + sep + b + sep + c + sep + d
  {
    assert [c, d][1..] == [d];
    assert Join([c, d], sep) == c + sep + d;
    assert [b, c, d][1..] == [c, d];
    assert Join([b, c, d], sep) == b + sep + (c + sep + d);
    assert [a, b, c, d][1..] == [b, c, d];
    assert Join([a, b, c, d], sep) == a + sep + (b + sep + (c + sep + d));
  }

  /** One pair formats as its four lines, the last of them empty. */
  lemma OneSceneFormat(action: string, scene: string, n: nat)
    ensures Join(SceneLines([(action, scene)], n), "\n")
            == "Scene " + NatToString(n) + ":" + "\n" + "Action: " + action + "\n" + "Result: " + scene + "\n"
  {
    assert SceneLines([(action, scene)], n) == SceneBlock((action, scene), n) by {
      assert [(action, scene)][1..] == [];
    }
    var header := "Scene " + NatToString(n) + ":";
    JoinFour(header, "Action: " + action, "Result: " + scene, "", "\n");
    assert header + "\n" + ("Action: " + action) + "\n" + ("Result: " + scene) + "\n" + ""
           == header + "\n" + "Action: " + action + "\n" + "Result: " + scene + "\n";
  }

  /** The extension of a save file gives way: "saves/x.json" becomes "saves/x_metadata.json". */
  lemma MetadataPathReplacesExtension(dir: string, name: string, ext: string)
    requires name != "" && name[0] != '.' && '/' !in name
    requires '.' !in ext && '/' !in ext
    ensures MetadataPath(dir + "/" + name + "." + ext) == dir + "/" + name + "_metadata.json"
  {
    SplitExtOfName(dir, name, ext);
  }

  /** Without a dot in the file name the suffix is simply appended. */
  lemma MetadataPathAppends(savePath: string)
    requires '.' !in savePath
    ensures MetadataPath(savePath) == savePath + "_metadata.json"
  {
  }
}
