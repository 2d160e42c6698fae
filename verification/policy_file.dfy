/** The policy file: what is written, how any parsed content is coerced, and that the two agree. */
module PolicyFile {
  import opened Options
  import opened Routing
  import opened Policy

  /** A parsed JSON document; `Other` covers numbers. */
  datatype Json = JNull | JBool(b: bool) | JString(s: string) | JOther | JArray(items: seq<Json>)
                | JObject(fields: seq<(string, Json)>)

  /** A missing field reads as `undefined`. */
  function Get(j: Json, name: string): Option<Json> {
    if j.JObject? then GetField(j.fields, name) else None
  }

  /** Of repeated names the last one counts. */
  function GetField(fields: seq<(string, Json)>, name: string): Option<Json> {
    if fields == [] then None
    else
      var last := fields[|fields| - 1];
      if last.0 == name then Some(last.1) else GetField(fields[..|fields| - 1], name)
  }

  function AgentName(a: Agent): string { if a.Codex? then "codex" else "deepseek-tui" }

  /** `isAgent`. */
  function AgentOf(j: Json): Option<Agent> {
    if j == JString("codex") then Some(Codex) else if j == JString("deepseek-tui") then Some(DeepseekTui) else None
  }

  // --- writing --------------------------------------------------------------------------

  function Strings(ss: seq<string>): seq<Json> {
    seq(|ss|, i requires 0 <= i < |ss| => JString(ss[i]))
  }

  function AgentsJson(agents: seq<Agent>): seq<Json> {
    seq(|agents|, i requires 0 <= i < |agents| => JString(AgentName(agents[i])))
  }

  function ProfileJson(p: Profile): Json {
    JObject([("agent", JString(AgentName(p.agent))), ("strengths", JArray(Strings(p.strengths)))])
  }

  function ProfilesJson(ps: seq<Profile>): seq<Json> {
    seq(|ps|, i requires 0 <= i < |ps| => ProfileJson(ps[i]))
  }

  function KeyName(k: Key): string {
    match k
    case Profiles => "profiles"
    case Unavailable => "unavailable"
    case SingleCoder => "singleCoder"
    case PreferLead => "preferLead"
  }

  function KeyValue(p: Policy, k: Key): Json {
    match k
    case Profiles => JArray(ProfilesJson(p.profiles))
    case Unavailable => JArray(AgentsJson(OffList(p)))
    case SingleCoder => JBool(p.singleCoder == Some(true))
    case PreferLead => if p.preferLead.Some? then JString(AgentName(p.preferLead.value)) else JNull
  }

  /** `JSON.stringify`: the fields in key order. */
  function Save(p: Policy): Json {
    JObject(seq(|p.keys|, i requires 0 <= i < |p.keys| => (KeyName(p.keys[i]), KeyValue(p, p.keys[i]))))
  }

  // --- reading --------------------------------------------------------------------------

  /** `strengths.map(String)`, with `text` the conversion of the values that are not strings. */
  function Texts(text: Json -> string, js: seq<Json>): seq<string> {
    seq(|js|, i requires 0 <= i < |js| => if js[i].JString? then js[i].s else text(js[i]))
  }

  function ReadProfiles(text: Json -> string, js: seq<Json>): seq<Profile> {
    if js == [] then []
    else
      var agent := match Get(js[0], "agent") case Some(a) => AgentOf(a) case None => None;
      var strengths := Get(js[0], "strengths");
      (if agent.Some? && strengths.Some? && strengths.value.JArray?
       then [Profile(agent.value, Texts(text, strengths.value.items))] else [])
      + ReadProfiles(text, js[1..])
  }

  function ReadAgents(js: seq<Json>): seq<Agent> {
    if js == [] then []
    else (match AgentOf(js[0]) case Some(a) => [a] case None => []) + ReadAgents(js[1..])
  }

  /** Junk is dropped, defaults are kept, empty lists and false flags disappear. */
  function Normalize(text: Json -> string, j: Json): Policy {
    var ps := match Get(j, "profiles")
              case Some(JArray(items)) => ReadProfiles(text, items)
              case _ => [];
    var off := match Get(j, "unavailable")
               case Some(JArray(items)) => ReadAgents(items)
               case _ => [];
    var single := Get(j, "singleCoder") == Some(JBool(true));
    var lead := match Get(j, "preferLead") case Some(a) => AgentOf(a) case None => None;
    Clone(Policy(if ps != [] then ps else Default.profiles,
                 if off != [] then Some(off) else None,
                 if single then Some(true) else None,
                 lead, []))
  }

  /** Nothing there, not JSON, or a document. */
  datatype File = Absent | Corrupt | Document(json: Json)

  /** Reading a field of a `null` document throws, which counts as corrupt. */
  function Load(text: Json -> string, f: File): Policy {
    match f
    case Document(j) => if j.JNull? then Clone(Default) else Normalize(text, j)
    case _ => Clone(Default)
  }

  /** What is read when there is no usable file: both coders on call with their own strengths, no cap, no lead. */
  lemma NoFileIsDefault(text: Json -> string, f: File)
    requires f.Absent? || f.Corrupt? || f.json.JNull?
    ensures var p := Load(text, f);
            && p.unavailable == None && p.singleCoder == None && p.preferLead == None && p.keys == [Profiles]
            && p.profiles == [ Profile(DeepseekTui, ["review", "analysis", "design", "refactor", "multi-file"]),
                               Profile(Codex, ["implement", "quick-fix", "scaffold", "single-file"]) ]
  {}

  /** An item that names no coder does not matter in the list of those off-call. */
  lemma {:induction false} JunkAgentsAreDropped(a: seq<Json>, x: Json, b: seq<Json>)
    requires x != JString("codex") && x != JString("deepseek-tui")
    ensures ReadAgents(a + [x] + b) == ReadAgents(a + b)
  {
    if a == [] {
      assert ([] + [x] + b)[1..] == b && [] + b == b;
    } else {
      assert (a + [x] + b)[1..] == a[1..] + [x] + b && (a + b)[1..] == a[1..] + b;
      JunkAgentsAreDropped(a[1..], x, b);
    }
  }

  /** Nor does a profile without the name of a coder, or without a list of strengths. */
  lemma {:induction false} JunkProfilesAreDropped(text: Json -> string, a: seq<Json>, x: Json, b: seq<Json>)
    requires || (Get(x, "agent") != Some(JString("codex")) && Get(x, "agent") != Some(JString("deepseek-tui")))
             || !(Get(x, "strengths").Some? && Get(x, "strengths").value.JArray?)
    ensures ReadProfiles(text, a + [x] + b) == ReadProfiles(text, a + b)
  {
    if a == [] {
      assert ([] + [x] + b)[1..] == b && [] + b == b;
    } else {
      assert (a + [x] + b)[1..] == a[1..] + [x] + b && (a + b)[1..] == a[1..] + b;
      JunkProfilesAreDropped(text, a[1..], x, b);
    }
  }

  /**
   * Each field of a document that is read: profiles only if a usable one is listed, else the default
   * ones; the coders off-call only if one is listed; the cap only if it is true; the lead only if it
   * is a coder.
   */
  lemma DocumentMeans(text: Json -> string, j: Json)
    requires !j.JNull?
    ensures var p := Load(text, Document(j));
            && (match Get(j, "profiles")
                case Some(JArray(items)) =>
                  p.profiles == if ReadProfiles(text, items) != [] then ReadProfiles(text, items) else Default.profiles
                case _ => p.profiles == Default.profiles)
            && (match Get(j, "unavailable")
                case Some(JArray(items)) =>
                  p.unavailable == if ReadAgents(items) != [] then Some(ReadAgents(items)) else None
                case _ => p.unavailable == None)
            && p.singleCoder == (if Get(j, "singleCoder") == Some(JBool(true)) then Some(true) else None)
            && p.preferLead == (if Get(j, "preferLead") == Some(JString("codex")) then Some(Codex)
                                else if Get(j, "preferLead") == Some(JString("deepseek-tui")) then Some(DeepseekTui)
                                else None)
  {}

  // --- the two agree ------------------------------------------------------------------------

  lemma {:induction false} ProfilesRoundTrip(text: Json -> string, ps: seq<Profile>)
    ensures ReadProfiles(text, ProfilesJson(ps)) == ps
  {
    if ps != [] {
      var js := ProfilesJson(ps);
      var f := js[0].fields;
      assert f[..1][..0] == [] && f[..1] == [("agent", JString(AgentName(ps[0].agent)))];
      assert GetField(f[..1], "agent") == Some(JString(AgentName(ps[0].agent)));
      assert Get(js[0], "strengths") == Some(JArray(Strings(ps[0].strengths)));
      assert Texts(text, Strings(ps[0].strengths)) == ps[0].strengths;
      assert js[1..] == ProfilesJson(ps[1..]);
      ProfilesRoundTrip(text, ps[1..]);
    }
  }

  lemma {:induction false} AgentsRoundTrip(agents: seq<Agent>)
    ensures ReadAgents(AgentsJson(agents)) == agents
  {
    if agents != [] {
      assert AgentsJson(agents)[1..] == AgentsJson(agents[1..]);
      AgentsRoundTrip(agents[1..]);
    }
  }

  /** The fields that `Save` writes for the keys `ks`. */
  function Fields(p: Policy, ks: seq<Key>): seq<(string, Json)> {
    seq(|ks|, i requires 0 <= i < |ks| => (KeyName(ks[i]), KeyValue(p, ks[i])))
  }

  lemma {:induction false} FieldFound(p: Policy, ks: seq<Key>, k: Key)
    ensures GetField(Fields(p, ks), KeyName(k)) == if k in ks then Some(KeyValue(p, k)) else None
  {
    if ks != [] {
      var last := |ks| - 1;
      assert Fields(p, ks)[..last] == Fields(p, ks[..last]);
      FieldFound(p, ks[..last], k);
      KeyNamesDiffer(ks[last], k);
    }
  }

  lemma KeyNamesDiffer(k: Key, l: Key)
    ensures KeyName(k) == KeyName(l) <==> k == l
  {
    assert |KeyName(Unavailable)| == 11 && |KeyName(SingleCoder)| == 11;
    assert KeyName(Unavailable)[0] != KeyName(SingleCoder)[0];
  }

  lemma KeysPresent(p: Policy)
    requires NormalForm(p)
    ensures Profiles in p.keys && (Unavailable in p.keys <==> p.unavailable.Some?)
    ensures (SingleCoder in p.keys <==> p.singleCoder.Some?) && (PreferLead in p.keys <==> p.preferLead.Some?)
  {}

  lemma SavedField(p: Policy, k: Key)
    ensures Get(Save(p), KeyName(k)) == if k in p.keys then Some(KeyValue(p, k)) else None
  {
    assert Save(p).fields == Fields(p, p.keys);
    FieldFound(p, p.keys, k);
  }

  lemma AgentNameRead(a: Agent)
    ensures AgentOf(JString(AgentName(a))) == Some(a)
  {}

  /** What a document must say to be read as `p`. */
  ghost predicate Says(j: Json, p: Policy) {
    && Get(j, "profiles") == Some(JArray(ProfilesJson(p.profiles)))
    && Get(j, "unavailable") == (if p.unavailable.Some? then Some(JArray(AgentsJson(p.unavailable.value))) else None)
    && Get(j, "singleCoder") == (if p.singleCoder.Some? then Some(JBool(true)) else None)
    && Get(j, "preferLead") == (if p.preferLead.Some? then Some(JString(AgentName(p.preferLead.value))) else None)
  }

  lemma FlagIsTrue(p: Policy)
    requires NormalForm(p) && p.singleCoder.Some?
    ensures p.singleCoder == Some(true)
  {
    match p.singleCoder
    case Some(b) => assert p.singleCoder == Some(b) && (b || Some(b) == Some(false));
  }

  lemma SavedSays(p: Policy)
    requires NormalForm(p)
    ensures Says(Save(p), p)
  {
    KeysPresent(p);
    if p.singleCoder.Some? { FlagIsTrue(p); }
    SavedField(p, Profiles);
    SavedField(p, Unavailable);
    SavedField(p, SingleCoder);
    SavedField(p, PreferLead);
  }

  lemma ReadWhatItSays(text: Json -> string, j: Json, p: Policy)
    requires NormalForm(p) && Says(j, p)
    ensures Normalize(text, j) == p
  {
    ProfilesRoundTrip(text, p.profiles);
    if p.unavailable.Some? { AgentsRoundTrip(p.unavailable.value); }
    if p.preferLead.Some? { AgentNameRead(p.preferLead.value); }
    if p.singleCoder.Some? { FlagIsTrue(p); }
  }

  /** A policy in normal form is read back exactly as it was written, key order included. */
  lemma LoadAfterSave(text: Json -> string, p: Policy)
    requires NormalForm(p)
    ensures Load(text, Document(Save(p))) == p
  {
    SavedSays(p);
    ReadWhatItSays(text, Save(p), p);
  }

  /** Whatever the file holds, what is loaded is in normal form. */
  lemma LoadedIsNormal(text: Json -> string, f: File)
    ensures NormalForm(Load(text, f))
  {}

  /** Coercing what a coercion produced changes nothing. */
  lemma NormalizeIdempotent(text: Json -> string, j: Json)
    ensures Normalize(text, Save(Normalize(text, j))) == Normalize(text, j)
  {
    LoadAfterSave(text, Normalize(text, j));
  }

  /** Editing, saving and reloading between sessions is the same as editing on in one session. */
  lemma SessionsCompose(lex: Lexicon, text: Json -> string, f: File, first: seq<string>, second: seq<string>)
    ensures EditAll(lex, Load(text, Document(Save(EditAll(lex, Load(text, f), first)))), second) ==
            EditAll(lex, Load(text, f), first + second)
  {
    var p := EditAll(lex, Load(text, f), first);
    EditsStayNormal(lex, Load(text, f), first);
    LoadAfterSave(text, p);
    EditAllAppend(lex, Load(text, f), first, second);
  }

  lemma {:induction false} EditAllAppend(lex: Lexicon, p: Policy, first: seq<string>, second: seq<string>)
    ensures EditAll(lex, EditAll(lex, p, first), second) == EditAll(lex, p, first + second)
    decreases |first|
  {
    if first == [] {
      assert first + second == second;
    } else {
      var e, rest := first[0], first[1..];
      assert first == [e] + rest && first + second == [e] + (rest + second);
      EditAllFirst(lex, p, e, rest);
      EditAllFirst(lex, p, e, rest + second);
      EditAllAppend(lex, Edit(lex, p, e).policy, rest, second);
    }
  }

  lemma EditAllFirst(lex: Lexicon, p: Policy, e: string, rest: seq<string>)
    ensures EditAll(lex, p, [e] + rest) == EditAll(lex, Edit(lex, p, e).policy, rest)
  {
    assert ([e] + rest)[1..] == rest;
  }
}
