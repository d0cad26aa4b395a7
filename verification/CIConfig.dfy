/** Parsing of a CI configuration's node tree into stages and jobs (ciyaml.go). */
module CIConfig {
  import opened Options

  // The node tree the YAML library hands over. Mapping content alternates keys and values.
  datatype Kind = ScalarNode | SequenceNode | MappingNode | OtherNode
  datatype Node = Node(kind: Kind, value: string, content: seq<Node>)
  datatype Document = NoText | Unparsable | Root(content: seq<Node>)

  datatype Variable = Variable(key: string, value: string)
  datatype ArtifactSpec =
    ArtifactSpec(name: string, paths: seq<string>, when: string, expireIn: string, untracked: bool)
  datatype Job = Job(
    name: string, stage: string,
    script: seq<string>, before: seq<string>, after: seq<string>, image: string,
    variables: seq<Variable>,
    artifacts: Option<ArtifactSpec>, dependencies: Option<seq<string>>)
  datatype Config = Config(stages: seq<string>, jobs: seq<Job>)
  datatype ParseError = NoConfig | BadYaml | NotAMapping | NoJobs
  datatype Parsed = Ok(config: Config) | Err(error: ParseError)

  type Entry = (string, Node)

  const RESERVED: set<string> := {
    "stages", "variables", "default", "include", "workflow", "image", "services",
    "before_script", "after_script", "cache", "pages"}

  // ----- Mapping entries -----

  /** The key/value entries of a mapping; a dangling last key is dropped. */
  function Entries(content: seq<Node>): seq<Entry> {
    if |content| < 2 then [] else [(content[0].value, content[1])] + Entries(content[2..])
  }

  /** The value of the last entry named `key`. */
  function LastValue(entries: seq<Entry>, key: string): Option<Node> {
    if entries == [] then None
    else
      var last := entries[|entries| - 1];
      if last.0 == key then Some(last.1) else LastValue(entries[..|entries| - 1], key)
  }

  function FilterEntries(entries: seq<Entry>, keep: Entry -> bool): seq<Entry> {
    if entries == [] then []
    else
      var n := |entries| - 1;
      FilterEntries(entries[..n], keep) + (if keep(entries[n]) then [entries[n]] else [])
  }

  lemma LastValueSnoc(entries: seq<Entry>, e: Entry, key: string)
    ensures LastValue(entries + [e], key) == if e.0 == key then Some(e.1) else LastValue(entries, key)
  {
    assert (entries + [e])[..|entries|] == entries;
  }

  /** Reading content two nodes at a time visits the entries in order. */
  lemma {:induction false} EntriesStep(content: seq<Node>, k: nat)
    requires 2 * k + 1 < |content|
    ensures Entries(content[..2 * k + 2]) ==
            Entries(content[..2 * k]) + [(content[2 * k].value, content[2 * k + 1])]
    decreases k
  {
    if k == 0 {
      assert content[..2][2..] == [];
      assert Entries(content[..2]) == [(content[0].value, content[1])] + Entries([]);
    } else {
      assert content[..2 * k + 2][2..] == content[2..][..2 * (k - 1) + 2];
      assert content[..2 * k][2..] == content[2..][..2 * (k - 1)];
      EntriesStep(content[2..], k - 1);
    }
  }

  /** A prefix with at most one node missing already holds every entry. */
  lemma {:induction false} EntriesDangling(content: seq<Node>, k: nat)
    requires 2 * k <= |content| <= 2 * k + 1
    ensures Entries(content[..2 * k]) == Entries(content)
    decreases k
  {
    if k == 0 {
    } else {
      assert content[..2 * k][2..] == content[2..][..2 * (k - 1)];
      EntriesDangling(content[2..], k - 1);
    }
  }

  // ----- Mapping entries by position -----

  predicate KeyAt(content: seq<Node>, i: nat, key: string) {
    2 * i + 1 < |content| && content[2 * i].value == key
  }

  ghost predicate LastKeyAt(content: seq<Node>, i: nat, key: string) {
    KeyAt(content, i, key) && forall k: nat :: k > i ==> !KeyAt(content, k, key)
  }

  ghost predicate FirstKeyAt(content: seq<Node>, i: nat, key: string) {
    KeyAt(content, i, key) && forall k: nat :: k < i ==> !KeyAt(content, k, key)
  }

  ghost predicate NoKey(content: seq<Node>, key: string) {
    forall i :: !KeyAt(content, i, key)
  }

  /** The field is the last occurrence of the key, decoded, or the default if the key does not occur. */
  ghost predicate Decides<T>(content: seq<Node>, key: string, decode: Node -> T, default: T, field: T) {
    && (NoKey(content, key) ==> field == default)
    && forall i :: LastKeyAt(content, i, key) ==> field == decode(content[2 * i + 1])
  }

  lemma {:induction false} EntriesAt(content: seq<Node>)
    ensures |Entries(content)| == |content| / 2
    ensures forall i :: 0 <= i < |Entries(content)| ==>
              Entries(content)[i] == (content[2 * i].value, content[2 * i + 1])
    decreases |content|
  {
    if |content| >= 2 {
      EntriesAt(content[2..]);
      forall i | 0 < i < |Entries(content)|
        ensures Entries(content)[i] == (content[2 * i].value, content[2 * i + 1])
      {
        assert Entries(content)[i] == Entries(content[2..])[i - 1];
      }
    }
  }

  lemma {:induction false} LastValueNone(es: seq<Entry>, key: string)
    requires forall i :: 0 <= i < |es| ==> es[i].0 != key
    ensures LastValue(es, key) == None
  {
    if es != [] {
      LastValueNone(es[..|es| - 1], key);
    }
  }

  lemma {:induction false} LastValueIs(es: seq<Entry>, key: string, i: nat)
    requires i < |es| && es[i].0 == key && forall k :: i < k < |es| ==> es[k].0 != key
    ensures LastValue(es, key) == Some(es[i].1)
  {
    var n := |es| - 1;
    if i < n {
      LastValueIs(es[..n], key, i);
    }
  }

  lemma LastValueByPosition(content: seq<Node>, key: string)
    ensures NoKey(content, key) ==> LastValue(Entries(content), key) == None
    ensures forall i :: LastKeyAt(content, i, key) ==> LastValue(Entries(content), key) == Some(content[2 * i + 1])
  {
    hide LastValue, Entries;
    EntriesAt(content);
    if NoKey(content, key) {
      NoEntry(content, key);
    }
    forall i: nat | LastKeyAt(content, i, key)
      ensures LastValue(Entries(content), key) == Some(content[2 * i + 1])
    {
      LastEntry(content, key, i);
    }
  }

  lemma NoEntry(content: seq<Node>, key: string)
    requires NoKey(content, key)
    ensures LastValue(Entries(content), key) == None
  {
    hide LastValue, Entries;
    EntriesAt(content);
    forall i: nat | i < |Entries(content)|
      ensures Entries(content)[i].0 != key
    {
      assert !KeyAt(content, i, key);
    }
    LastValueNone(Entries(content), key);
  }

  lemma LastEntry(content: seq<Node>, key: string, i: nat)
    requires LastKeyAt(content, i, key)
    ensures LastValue(Entries(content), key) == Some(content[2 * i + 1])
  {
    hide LastValue, Entries;
    EntriesAt(content);
    forall k: nat | i < k < |Entries(content)|
      ensures Entries(content)[k].0 != key
    {
      assert !KeyAt(content, k, key);
    }
    LastValueIs(Entries(content), key, i);
  }

  // ----- Decoders -----

  /** The text leaves below a list of nodes, left to right, at every depth. */
  function Leaves(items: seq<Node>): seq<string>
    decreases items
  {
    if items == [] then []
    else
      (if items[0].kind == SequenceNode then Leaves(items[0].content) else [items[0].value])
      + Leaves(items[1..])
  }

  /** None is Go's nil slice; an empty sequence decodes to an empty, non-nil list. */
  function StringList(n: Node): Option<seq<string>> {
    match n.kind
    case ScalarNode => if n.value == "" then None else Some([n.value])
    case SequenceNode => Some(Leaves(n.content))
    case _ => None
  }

  /** A single command or a list of them; nil and the empty list are alike to these callers. */
  function Commands(n: Node): seq<string> {
    StringList(n).GetOr([])
  }

  lemma {:induction false} LeavesAppend(a: seq<Node>, b: seq<Node>)
    ensures Leaves(a + b) == Leaves(a) + Leaves(b)
  {
    if a == [] {
      assert a + b == b;
    } else {
      assert (a + b)[1..] == a[1..] + b;
      LeavesAppend(a[1..], b);
    }
  }

  method DecodeStringList(n: Node) returns (r: Option<seq<string>>)
    ensures r == StringList(n)
    ensures n.kind == ScalarNode ==> r == if n.value == "" then None else Some([n.value])
    ensures n.kind == SequenceNode ==> r == Some(Leaves(n.content))
    ensures n.kind == MappingNode || n.kind == OtherNode ==> r == None
    decreases n
  {
    match n.kind
    case ScalarNode =>
      if n.value == "" {
        return None;
      }
      return Some([n.value]);
    case SequenceNode =>
      var out: seq<string> := [];
      for i := 0 to |n.content|
        invariant out == Leaves(n.content[..i])
      {
        var c := n.content[i];
        assert n.content[..i + 1] == n.content[..i] + [c];
        LeavesAppend(n.content[..i], [c]);
        assert [c][1..] == [];
        if c.kind == SequenceNode {
          var nested := DecodeStringList(c);
          out := out + nested.GetOr([]);
        } else {
          out := out + [c.value];
        }
      }
      assert n.content[..|n.content|] == n.content;
      return Some(out);
    case _ =>
      return None;
  }

  /**
   * Replacing a nested sequence by its own items, anywhere in a list, changes nothing. Together with
   * FlatLeaves, which says what a list with no nested sequence decodes to, this fixes the decoding as
   * the left-to-right flattening at every depth.
   */
  lemma SpliceNested(before: seq<Node>, nested: Node, after: seq<Node>)
    requires nested.kind == SequenceNode
    ensures Leaves(before + [nested] + after) == Leaves(before + nested.content + after)
  {
    LeavesAppend(before + [nested], after);
    LeavesAppend(before, [nested]);
    LeavesAppend(before + nested.content, after);
    LeavesAppend(before, nested.content);
    assert Leaves([nested]) == Leaves(nested.content) by {
      assert [nested][1..] == [];
    }
  }

  lemma {:induction false} FlatLeaves(flat: seq<Node>)
    requires forall i :: 0 <= i < |flat| ==> flat[i].kind != SequenceNode
    ensures |Leaves(flat)| == |flat| && forall i :: 0 <= i < |flat| ==> Leaves(flat)[i] == flat[i].value
  {
    if flat != [] {
      FlatLeaves(flat[1..]);
      assert Leaves(flat) == [flat[0].value] + Leaves(flat[1..]);
    }
  }

  /** Variables in order; Go's nil and the empty list are not told apart by any caller. */
  function Variables(n: Node): seq<Variable> {
    if n.kind != MappingNode then [] else VariablesOf(Entries(n.content))
  }

  function VariablesOf(entries: seq<Entry>): seq<Variable> {
    seq(|entries|, i requires 0 <= i < |entries| => Variable(entries[i].0, entries[i].1.value))
  }

  method DecodeVariables(n: Node) returns (out: seq<Variable>)
    ensures out == Variables(n)
  {
    out := [];
    if n.kind != MappingNode {
      return;
    }
    var k := 0;
    while 2 * k + 1 < |n.content|
      invariant 2 * k <= |n.content|
      invariant out == VariablesOf(Entries(n.content[..2 * k]))
      decreases |n.content| - 2 * k
    {
      EntriesStep(n.content, k);
      out := out + [Variable(n.content[2 * k].value, n.content[2 * k + 1].value)];
      k := k + 1;
    }
    EntriesDangling(n.content, k);
  }

  /** One variable for each entry, in order, and none for anything but a mapping. */
  lemma VariablesLaw(n: Node)
    ensures n.kind != MappingNode ==> Variables(n) == []
    ensures n.kind == MappingNode ==>
              && |Variables(n)| == |n.content| / 2
              && forall i :: 0 <= i < |n.content| / 2 ==>
                   Variables(n)[i] == Variable(n.content[2 * i].value, n.content[2 * i + 1].value)
  {
    EntriesAt(n.content);
  }

  /** `image: name` or the first `name` of `image: {name: ...}`. */
  function ImageName(n: Node): string {
    match n.kind
    case ScalarNode => n.value
    case MappingNode => FirstName(Entries(n.content))
    case _ => ""
  }

  function FirstName(entries: seq<Entry>): string {
    if entries == [] then ""
    else if entries[0].0 == "name" then entries[0].1.value
    else FirstName(entries[1..])
  }

  lemma {:induction false} FirstNameAt(es: seq<Entry>, i: nat)
    requires i < |es| && es[i].0 == "name" && forall k :: 0 <= k < i ==> es[k].0 != "name"
    ensures FirstName(es) == es[i].1.value
  {
    if i > 0 {
      FirstNameAt(es[1..], i - 1);
    }
  }

  lemma {:induction false} NoName(es: seq<Entry>)
    requires forall i :: 0 <= i < |es| ==> es[i].0 != "name"
    ensures FirstName(es) == ""
  {
    if es != [] {
      NoName(es[1..]);
    }
  }

  /** A name alone, or the first `name` of a mapping; anything else names no image. */
  lemma ImageLaw(n: Node)
    ensures n.kind == ScalarNode ==> ImageName(n) == n.value
    ensures n.kind == MappingNode && NoKey(n.content, "name") ==> ImageName(n) == ""
    ensures n.kind == MappingNode ==>
              forall i: nat :: FirstKeyAt(n.content, i, "name") ==> ImageName(n) == n.content[2 * i + 1].value
    ensures n.kind != ScalarNode && n.kind != MappingNode ==> ImageName(n) == ""
  {
    hide Entries, FirstName, FirstKeyAt;
    if n.kind == MappingNode {
      if NoKey(n.content, "name") {
        NoFirstName(n.content);
      }
      forall i: nat | FirstKeyAt(n.content, i, "name")
        ensures KeyAt(n.content, i, "name") && ImageName(n) == n.content[2 * i + 1].value
      {
        FirstIsThere(n.content, i);
        FirstNameByPosition(n.content, i);
      }
    }
  }

  lemma FirstIsThere(content: seq<Node>, i: nat)
    requires FirstKeyAt(content, i, "name")
    ensures KeyAt(content, i, "name")
  {
  }

  lemma NoFirstName(content: seq<Node>)
    requires NoKey(content, "name")
    ensures FirstName(Entries(content)) == ""
  {
    hide Entries, FirstName;
    EntriesAt(content);
    forall i: nat | i < |Entries(content)|
      ensures Entries(content)[i].0 != "name"
    {
      assert !KeyAt(content, i, "name");
    }
    NoName(Entries(content));
  }

  lemma FirstNameByPosition(content: seq<Node>, i: nat)
    requires FirstKeyAt(content, i, "name")
    ensures KeyAt(content, i, "name") && FirstName(Entries(content)) == content[2 * i + 1].value
  {
    hide Entries, FirstName;
    EntriesAt(content);
    forall k: nat | k < i
      ensures Entries(content)[k].0 != "name"
    {
      assert !KeyAt(content, k, "name");
    }
    FirstNameAt(Entries(content), i);
  }

  function Text(n: Node): string {
    n.value
  }

  function LastText(entries: seq<Entry>, key: string, default: string): string {
    match LastValue(entries, key)
    case Some(n) => n.value
    case None => default
  }

  function LastStrings(entries: seq<Entry>, key: string, default: seq<string>): seq<string> {
    match LastValue(entries, key)
    case Some(n) => Commands(n)
    case None => default
  }

  /** Absent when the mapping names neither paths nor untracked files. */
  function Artifacts(n: Node): Option<ArtifactSpec> {
    if n.kind != MappingNode then None
    else
      var es := Entries(n.content);
      var spec := ArtifactsOf(es);
      if spec.paths == [] && !spec.untracked then None else Some(spec)
  }

  function ArtifactsOf(es: seq<Entry>): ArtifactSpec {
    ArtifactSpec(LastText(es, "name", ""), LastStrings(es, "paths", []), LastText(es, "when", "on_success"),
                 LastText(es, "expire_in", ""), LastText(es, "untracked", "") == "true")
  }

  lemma TextDecides(content: seq<Node>, key: string, default: string)
    ensures Decides(content, key, Text, default, LastText(Entries(content), key, default))
  {
    hide Entries, LastValue, KeyAt;
    LastValueByPosition(content, key);
  }

  lemma StringsDecide(content: seq<Node>, key: string, default: seq<string>)
    ensures Decides(content, key, Commands, default, LastStrings(Entries(content), key, default))
  {
    hide Entries, LastValue, KeyAt, Commands;
    LastValueByPosition(content, key);
  }

  function IsTrue(n: Node): bool {
    n.value == "true"
  }

  /** Each artifact setting is its last occurrence; the whole is absent without paths or untracked files. */
  lemma ArtifactsLaw(n: Node)
    ensures n.kind != MappingNode ==> Artifacts(n) == None
    ensures n.kind == MappingNode ==>
              exists spec: ArtifactSpec ::
                && Decides(n.content, "name", Text, "", spec.name)
                && Decides(n.content, "paths", Commands, [], spec.paths)
                && Decides(n.content, "when", Text, "on_success", spec.when)
                && Decides(n.content, "expire_in", Text, "", spec.expireIn)
                && Decides(n.content, "untracked", IsTrue, false, spec.untracked)
                && Artifacts(n) == if spec.paths == [] && !spec.untracked then None else Some(spec)
  {
    hide Entries, LastText, LastStrings, Decides;
    if n.kind == MappingNode {
      TextDecides(n.content, "name", "");
      StringsDecide(n.content, "paths", []);
      TextDecides(n.content, "when", "on_success");
      TextDecides(n.content, "expire_in", "");
      UntrackedDecides(n.content);
      var spec := ArtifactsOf(Entries(n.content));
      assert Decides(n.content, "name", Text, "", spec.name);
    }
  }

  lemma UntrackedDecides(content: seq<Node>)
    ensures Decides(content, "untracked", IsTrue, false, LastText(Entries(content), "untracked", "") == "true")
  {
    hide Entries, LastValue, KeyAt;
    LastValueByPosition(content, "untracked");
  }

  method DecodeArtifacts(n: Node) returns (r: Option<ArtifactSpec>)
    ensures r == Artifacts(n)
  {
    if n.kind != MappingNode {
      return None;
    }
    var spec := ArtifactSpec("", [], "on_success", "", false);
    var k := 0;
    while 2 * k + 1 < |n.content|
      invariant 2 * k <= |n.content|
      invariant spec == ArtifactsOf(Entries(n.content[..2 * k]))
      decreases |n.content| - 2 * k
    {
      var key, val := n.content[2 * k].value, n.content[2 * k + 1];
      ghost var seen := Entries(n.content[..2 * k]);
      EntriesStep(n.content, k);
      forall name {
        LastValueSnoc(seen, (key, val), name);
      }
      if key == "name" {
        spec := spec.(name := val.value);
      } else if key == "paths" {
        var paths := DecodeStringList(val);
        spec := spec.(paths := paths.GetOr([]));
      } else if key == "when" {
        spec := spec.(when := val.value);
      } else if key == "expire_in" {
        spec := spec.(expireIn := val.value);
      } else if key == "untracked" {
        spec := spec.(untracked := val.value == "true");
      }
      k := k + 1;
    }
    EntriesDangling(n.content, k);
    if spec.paths == [] && !spec.untracked {
      return None;
    }
    return Some(spec);
  }

  // ----- The configuration -----

  datatype Globals = Globals(
    stages: seq<string>, image: string, before: seq<string>, after: seq<string>, variables: seq<Variable>)

  predicate IsConfigEntry(e: Entry) {
    e.0 in {"stages", "image", "before_script", "after_script", "variables"}
  }

  /** Jobs are the unreserved, visible keys that hold a mapping. */
  predicate IsJobEntry(e: Entry) {
    e.0 !in RESERVED && |e.0| != 0 && e.0[0] != '.' && e.1.kind == MappingNode
  }

  function LastImage(entries: seq<Entry>, default: string): string {
    match LastValue(entries, "image")
    case Some(n) => ImageName(n)
    case None => default
  }

  function LastVariables(entries: seq<Entry>): seq<Variable> {
    match LastValue(entries, "variables")
    case Some(n) => Variables(n)
    case None => []
  }

  /** Top-level defaults: the last occurrence of each key decides. */
  function GlobalsOf(es: seq<Entry>): Globals {
    Globals(LastStrings(es, "stages", []), LastImage(es, ""), LastStrings(es, "before_script", []),
            LastStrings(es, "after_script", []), LastVariables(es))
  }

  /** All `variables` mappings of a job, in order. */
  function AllVariables(es: seq<Entry>): seq<Variable> {
    if es == [] then []
    else
      var n := |es| - 1;
      AllVariables(es[..n]) + (if es[n].0 == "variables" then Variables(es[n].1) else [])
  }

  function LastDependencies(es: seq<Entry>): Option<seq<string>> {
    match LastValue(es, "dependencies")
    case Some(n) => StringList(n)
    case None => None
  }

  function LastArtifacts(es: seq<Entry>): Option<ArtifactSpec> {
    match LastValue(es, "artifacts")
    case Some(n) => Artifacts(n)
    case None => None
  }

  function JobOf(name: string, es: seq<Entry>, g: Globals): Job {
    Job(name, LastText(es, "stage", "test"),
        LastStrings(es, "script", []), LastStrings(es, "before_script", g.before),
        LastStrings(es, "after_script", g.after), LastImage(es, g.image),
        g.variables + AllVariables(es), LastArtifacts(es), LastDependencies(es))
  }

  function JobsOf(es: seq<Entry>, g: Globals): seq<Job> {
    if es == [] then []
    else
      var n := |es| - 1;
      JobsOf(es[..n], g) + (if IsJobEntry(es[n]) then [JobOf(es[n].0, Entries(es[n].1.content), g)] else [])
  }

  function ConfigOf(es: seq<Entry>): Config {
    var g := GlobalsOf(es);
    Config(if g.stages == [] then ["build", "test", "deploy"] else g.stages, JobsOf(es, g))
  }

  function Parse(doc: Document): Parsed {
    match doc
    case NoText => Err(NoConfig)
    case Unparsable => Err(BadYaml)
    case Root(content) =>
      if content == [] || content[0].kind != MappingNode then Err(NotAMapping)
      else
        var config := ConfigOf(Entries(content[0].content));
        if config.jobs == [] then Err(NoJobs) else Ok(config)
  }

  /** The effect of one more key on a job. */
  function ApplyKey(job: Job, e: Entry): Job {
    if e.0 == "stage" then job.(stage := e.1.value)
    else if e.0 == "script" then job.(script := Commands(e.1))
    else if e.0 == "before_script" then job.(before := Commands(e.1))
    else if e.0 == "after_script" then job.(after := Commands(e.1))
    else if e.0 == "image" then job.(image := ImageName(e.1))
    else if e.0 == "variables" then job.(variables := job.variables + Variables(e.1))
    else if e.0 == "artifacts" then job.(artifacts := Artifacts(e.1))
    else if e.0 == "dependencies" then job.(dependencies := StringList(e.1))
    else job
  }

  lemma TextSnoc(es: seq<Entry>, e: Entry, key: string, default: string)
    ensures LastText(es + [e], key, default) == if e.0 == key then e.1.value else LastText(es, key, default)
  {
    LastValueSnoc(es, e, key);
  }

  lemma StringsSnoc(es: seq<Entry>, e: Entry, key: string, default: seq<string>)
    ensures LastStrings(es + [e], key, default) ==
            if e.0 == key then Commands(e.1) else LastStrings(es, key, default)
  {
    LastValueSnoc(es, e, key);
  }

  lemma VariablesSnoc(es: seq<Entry>, e: Entry)
    ensures AllVariables(es + [e]) ==
            if e.0 == "variables" then AllVariables(es) + Variables(e.1) else AllVariables(es)
  {
    assert (es + [e])[..|es|] == es;
    assert AllVariables(es) + [] == AllVariables(es);
  }

  lemma JobOfSnoc(name: string, es: seq<Entry>, e: Entry, g: Globals)
    ensures JobOf(name, es + [e], g) == ApplyKey(JobOf(name, es, g), e)
  {
    hide LastValue, LastText, LastStrings, AllVariables, StringList, Variables, Artifacts, ImageName, Entries;
    TextSnoc(es, e, "stage", "test");
    StringsSnoc(es, e, "script", []);
    StringsSnoc(es, e, "before_script", g.before);
    StringsSnoc(es, e, "after_script", g.after);
    LastValueSnoc(es, e, "image");
    VariablesSnoc(es, e);
    assert e.0 == "variables" ==> g.variables + (AllVariables(es) + Variables(e.1)) ==
                                  g.variables + AllVariables(es) + Variables(e.1);
    LastValueSnoc(es, e, "artifacts");
    LastValueSnoc(es, e, "dependencies");
  }

  /** The variables of all `variables` entries from position `k` on, in order. */
  function Definitions(content: seq<Node>, k: nat): seq<Variable>
    decreases |content| - 2 * k
  {
    if 2 * k + 1 >= |content| then []
    else
      var here := if content[2 * k].value == "variables" then Variables(content[2 * k + 1]) else [];
      here + Definitions(content, k + 1)
  }

  /** What each field of a job is, by the entries of its mapping and the document's defaults. */
  ghost predicate JobLaw(job: Job, name: string, content: seq<Node>, g: Globals) {
    && job.name == name
    && Decides(content, "stage", Text, "test", job.stage)
    && Decides(content, "script", Commands, [], job.script)
    && Decides(content, "before_script", Commands, g.before, job.before)
    && Decides(content, "after_script", Commands, g.after, job.after)
    && Decides(content, "image", ImageName, g.image, job.image)
    && Decides(content, "artifacts", Artifacts, None, job.artifacts)
    && Decides(content, "dependencies", StringList, None, job.dependencies)
    && job.variables == g.variables + Definitions(content, 0)
  }

  /** What each default is, by the top-level entries. */
  ghost predicate GlobalsLaw(g: Globals, content: seq<Node>) {
    && Decides(content, "stages", Commands, [], g.stages)
    && Decides(content, "image", ImageName, "", g.image)
    && Decides(content, "before_script", Commands, [], g.before)
    && Decides(content, "after_script", Commands, [], g.after)
    && Decides(content, "variables", Variables, [], g.variables)
  }

  lemma ImageDecides(content: seq<Node>, default: string)
    ensures Decides(content, "image", ImageName, default, LastImage(Entries(content), default))
  {
    hide Entries, LastValue, KeyAt, ImageName;
    LastValueByPosition(content, "image");
  }

  lemma OptionsDecide(content: seq<Node>)
    ensures Decides(content, "artifacts", Artifacts, None, LastArtifacts(Entries(content)))
    ensures Decides(content, "dependencies", StringList, None, LastDependencies(Entries(content)))
  {
    hide Entries, LastValue, KeyAt, Artifacts, StringList;
    LastValueByPosition(content, "artifacts");
    LastValueByPosition(content, "dependencies");
  }

  lemma {:induction false} AllVariablesAppend(a: seq<Entry>, b: seq<Entry>)
    ensures AllVariables(a + b) == AllVariables(a) + AllVariables(b)
  {
    hide Variables;
    if b == [] {
      assert a + b == a;
    } else {
      var n := |b| - 1;
      assert (a + b)[..|a + b| - 1] == a + b[..n];
      AllVariablesAppend(a, b[..n]);
    }
  }

  lemma {:induction false} AllVariablesFrom(content: seq<Node>, k: nat)
    requires 2 * k <= |content|
    ensures AllVariables(Entries(content[2 * k..])) == Definitions(content, k)
    decreases |content| - 2 * k
  {
    hide Variables;
    if 2 * k + 1 < |content| {
      var rest := content[2 * k..];
      assert rest[2..] == content[2 * (k + 1)..];
      AllVariablesFrom(content, k + 1);
      AllVariablesAppend([(rest[0].value, rest[1])], Entries(rest[2..]));
      assert [(rest[0].value, rest[1])][..0] == [];
    }
  }

  lemma JobMeetsLaw(name: string, content: seq<Node>, g: Globals)
    ensures JobLaw(JobOf(name, Entries(content), g), name, content, g)
  {
    hide Entries, LastText, LastStrings, LastImage, LastArtifacts, LastDependencies, AllVariables, Definitions, Decides;
    TextDecides(content, "stage", "test");
    StringsDecide(content, "script", []);
    StringsDecide(content, "before_script", g.before);
    StringsDecide(content, "after_script", g.after);
    ImageDecides(content, g.image);
    OptionsDecide(content);
    AllVariablesFrom(content, 0);
    assert content[0..] == content;
  }

  lemma GlobalsMeetLaw(content: seq<Node>)
    ensures GlobalsLaw(GlobalsOf(Entries(content)), content)
  {
    hide Entries, LastText, LastStrings, LastImage, LastVariables, Decides;
    StringsDecide(content, "stages", []);
    ImageDecides(content, "");
    StringsDecide(content, "before_script", []);
    StringsDecide(content, "after_script", []);
    VariablesDecide(content);
  }

  lemma VariablesDecide(content: seq<Node>)
    ensures Decides(content, "variables", Variables, [], LastVariables(Entries(content)))
  {
    hide Entries, LastValue, KeyAt, Variables;
    LastValueByPosition(content, "variables");
  }

  method ParseJob(name: string, val: Node, g: Globals) returns (job: Job)
    ensures job == JobOf(name, Entries(val.content), g)
    ensures JobLaw(job, name, val.content, g)
  {
    JobMeetsLaw(name, val.content, g);
    hide JobLaw;
    job := Job(name, "test", [], g.before, g.after, g.image, g.variables, None, None);
    var k := 0;
    while 2 * k + 1 < |val.content|
      invariant 2 * k <= |val.content|
      invariant job == JobOf(name, Entries(val.content[..2 * k]), g)
      decreases |val.content| - 2 * k
    {
      var key, jv := val.content[2 * k].value, val.content[2 * k + 1];
      EntriesStep(val.content, k);
      JobOfSnoc(name, Entries(val.content[..2 * k]), (key, jv), g);
      if key == "stage" {
        job := job.(stage := jv.value);
      } else if key == "script" {
        var list := DecodeStringList(jv);
        job := job.(script := list.GetOr([]));
      } else if key == "before_script" {
        var list := DecodeStringList(jv);
        job := job.(before := list.GetOr([]));
      } else if key == "after_script" {
        var list := DecodeStringList(jv);
        job := job.(after := list.GetOr([]));
      } else if key == "image" {
        job := job.(image := ImageName(jv));
      } else if key == "variables" {
        var vs := DecodeVariables(jv);
        job := job.(variables := job.variables + vs);
      } else if key == "artifacts" {
        var spec := DecodeArtifacts(jv);
        job := job.(artifacts := spec);
      } else if key == "dependencies" {
        var list := DecodeStringList(jv);
        job := job.(dependencies := list);
      }
      k := k + 1;
    }
    EntriesDangling(val.content, k);
  }

  /** The effect of one more top-level key on the defaults. */
  function ApplyGlobal(g: Globals, e: Entry): Globals {
    if e.0 == "stages" then g.(stages := Commands(e.1))
    else if e.0 == "image" then g.(image := ImageName(e.1))
    else if e.0 == "before_script" then g.(before := Commands(e.1))
    else if e.0 == "after_script" then g.(after := Commands(e.1))
    else if e.0 == "variables" then g.(variables := Variables(e.1))
    else g
  }

  lemma GlobalsOfSnoc(es: seq<Entry>, e: Entry)
    ensures GlobalsOf([]) == Globals([], "", [], [], [])
    ensures GlobalsOf(es + [e]) == ApplyGlobal(GlobalsOf(es), e)
  {
    hide LastValue, LastStrings, Commands, Variables, ImageName;
    StringsSnoc(es, e, "stages", []);
    LastValueSnoc(es, e, "image");
    StringsSnoc(es, e, "before_script", []);
    StringsSnoc(es, e, "after_script", []);
    LastValueSnoc(es, e, "variables");
    NoGlobals();
  }

  lemma NoGlobals()
    ensures GlobalsOf([]) == Globals([], "", [], [], [])
  {
  }

  /** First pass over the top-level keys. */
  lemma NoEntries()
    ensures Entries([]) == []
  {
  }

  method ParseGlobals(doc: Node) returns (g: Globals)
    ensures g == GlobalsOf(Entries(doc.content))
    ensures GlobalsLaw(g, doc.content)
  {
    GlobalsMeetLaw(doc.content);
    GlobalsOfSnoc([], ("", doc));
    hide GlobalsLaw, GlobalsOf, Variables, ImageName, Entries;
    assert doc.content[..0] == [];
    NoEntries();
    g := Globals([], "", [], [], []);
    var k := 0;
    while 2 * k + 1 < |doc.content|
      invariant 2 * k <= |doc.content|
      invariant g == GlobalsOf(Entries(doc.content[..2 * k]))
      decreases |doc.content| - 2 * k
    {
      var key, val := doc.content[2 * k].value, doc.content[2 * k + 1];
      EntriesStep(doc.content, k);
      GlobalsOfSnoc(Entries(doc.content[..2 * k]), (key, val));
      if key == "stages" {
        var list := DecodeStringList(val);
        g := g.(stages := list.GetOr([]));
      } else if key == "image" {
        g := g.(image := ImageName(val));
      } else if key == "before_script" {
        var list := DecodeStringList(val);
        g := g.(before := list.GetOr([]));
      } else if key == "after_script" {
        var list := DecodeStringList(val);
        g := g.(after := list.GetOr([]));
      } else if key == "variables" {
        var vs := DecodeVariables(val);
        g := g.(variables := vs);
      }
      k := k + 1;
    }
    EntriesDangling(doc.content, k);
  }

  lemma JobsOfSnoc(es: seq<Entry>, e: Entry, g: Globals)
    ensures JobsOf([], g) == []
    ensures JobsOf(es + [e], g) ==
            if IsJobEntry(e) then JobsOf(es, g) + [JobOf(e.0, Entries(e.1.content), g)] else JobsOf(es, g)
  {
    assert (es + [e])[..|es|] == es;
    assert JobsOf(es, g) + [] == JobsOf(es, g);
  }

  /** Second pass over the top-level keys. */
  method ParseJobs(doc: Node, g: Globals) returns (jobs: seq<Job>)
    ensures jobs == JobsOf(Entries(doc.content), g)
  {
    hide JobsOf, JobOf;
    jobs := [];
    JobsOfSnoc([], ("", doc), g);
    var k := 0;
    while 2 * k + 1 < |doc.content|
      invariant 2 * k <= |doc.content|
      invariant jobs == JobsOf(Entries(doc.content[..2 * k]), g)
      decreases |doc.content| - 2 * k
    {
      var name, val := doc.content[2 * k].value, doc.content[2 * k + 1];
      EntriesStep(doc.content, k);
      JobsOfSnoc(Entries(doc.content[..2 * k]), (name, val), g);
      if name !in RESERVED && |name| != 0 && name[0] != '.' && val.kind == MappingNode {
        var job := ParseJob(name, val, g);
        jobs := jobs + [job];
      }
      k := k + 1;
    }
    EntriesDangling(doc.content, k);
  }

  /** The entry at this position is a job: not a reserved name, not hidden, and a mapping. */
  predicate JobAt(content: seq<Node>, i: nat) {
    && 2 * i + 1 < |content| && content[2 * i + 1].kind == MappingNode
    && var name := content[2 * i].value;
       && name != "" && name[0] != '.'
       && name != "stages" && name != "variables" && name != "default" && name != "include" && name != "workflow"
       && name != "image" && name != "services" && name != "before_script" && name != "after_script"
       && name != "cache" && name != "pages"
  }

  /** `at` lists the positions below `n` that hold a job, in increasing order. */
  ghost predicate JobPositions(content: seq<Node>, at: seq<nat>, n: nat) {
    && (forall i: nat :: i in at <==> i < n && JobAt(content, i))
    && forall a, b :: 0 <= a < b < |at| ==> at[a] < at[b]
  }

  /** One job for each of these positions, in order, each by its own entries. */
  ghost predicate JobsLaw(jobs: seq<Job>, content: seq<Node>, at: seq<nat>, g: Globals) {
    && |jobs| == |at|
    && forall k :: 0 <= k < |at| ==>
         2 * at[k] + 1 < |content| && JobLaw(jobs[k], content[2 * at[k]].value, content[2 * at[k] + 1].content, g)
  }

  ghost predicate ConfigLaw(config: Config, content: seq<Node>) {
    exists g, at :: ConfigFrom(config, content, g, at)
  }

  ghost predicate ConfigFrom(config: Config, content: seq<Node>, g: Globals, at: seq<nat>) {
    && GlobalsLaw(g, content) && JobPositions(content, at, |content|) && JobsLaw(config.jobs, content, at, g)
    && config.stages == if g.stages == [] then ["build", "test", "deploy"] else g.stages
  }

  lemma {:induction false} JobsMeetLaw(content: seq<Node>, n: nat, g: Globals) returns (at: seq<nat>)
    requires 2 * n <= |content|
    ensures JobPositions(content, at, n) && JobsLaw(JobsOf(Entries(content[..2 * n]), g), content, at, g)
    decreases n
  {
    hide Entries, JobsOf, JobOf, JobLaw, JobAt, IsJobEntry, JobPositions, JobsLaw;
    if n == 0 {
      at := [];
      NoJobsLaw(content, g);
    } else {
      at := JobsMeetLaw(content, n - 1, g);
      var e := (content[2 * n - 2].value, content[2 * n - 1]);
      EntriesStep(content, n - 1);
      JobsOfSnoc(Entries(content[..2 * n - 2]), e, g);
      JobEntryAt(content, n - 1);
      MorePositions(content, at, n - 1);
      if IsJobEntry(e) {
        JobMeetsLaw(e.0, e.1.content, g);
        MoreJobs(JobsOf(Entries(content[..2 * n - 2]), g), JobOf(e.0, Entries(e.1.content), g), content, at, n - 1, g);
        at := at + [n - 1];
      }
    }
  }

  lemma NoJobsLaw(content: seq<Node>, g: Globals)
    ensures JobPositions(content, [], 0) && JobsLaw(JobsOf(Entries(content[..0]), g), content, [], g)
  {
    hide JobLaw, JobAt;
    assert content[..0] == [];
  }

  lemma JobEntryAt(content: seq<Node>, i: nat)
    requires 2 * i + 1 < |content|
    ensures IsJobEntry((content[2 * i].value, content[2 * i + 1])) <==> JobAt(content, i)
  {
  }

  lemma MorePositions(content: seq<Node>, at: seq<nat>, n: nat)
    requires JobPositions(content, at, n)
    ensures JobPositions(content, if JobAt(content, n) then at + [n] else at, n + 1)
  {
    hide JobAt;
    forall a | 0 <= a < |at|
      ensures at[a] < n
    {
      assert at[a] in at;
    }
  }

  lemma MoreJobs(jobs: seq<Job>, job: Job, content: seq<Node>, at: seq<nat>, i: nat, g: Globals)
    requires JobsLaw(jobs, content, at, g) && 2 * i + 1 < |content|
    requires JobLaw(job, content[2 * i].value, content[2 * i + 1].content, g)
    ensures JobsLaw(jobs + [job], content, at + [i], g)
  {
    hide JobLaw;
  }

  /** Every configuration that parses follows from the top-level entries by position. */
  lemma ConfigMeetsLaw(content: seq<Node>)
    ensures ConfigLaw(ConfigOf(Entries(content)), content)
    ensures ConfigOf(Entries(content)).jobs == [] <==> forall i: nat :: !JobAt(content, i)
  {
    hide Entries, JobsOf, GlobalsOf, GlobalsLaw, JobLaw, JobAt, JobPositions;
    var g, n := GlobalsOf(Entries(content)), |content| / 2;
    GlobalsMeetLaw(content);
    var at := JobsMeetLaw(content, n, g);
    EntriesDangling(content, n);
    JobsInRange(content, at);
    assert ConfigFrom(ConfigOf(Entries(content)), content, g, at);
    if at != [] {
      assert at[0] in at;
    }
  }

  lemma JobsInRange(content: seq<Node>, at: seq<nat>)
    requires JobPositions(content, at, |content| / 2)
    ensures JobPositions(content, at, |content|) && forall i: nat :: JobAt(content, i) <==> i in at
  {
    forall i: nat | JobAt(content, i)
      ensures i < |content| / 2
    {
    }
    hide JobAt;
  }

  method ParseCIConfig(doc: Document) returns (r: Parsed)
    ensures r == Parse(doc)
    ensures doc.Root? && r.Ok? ==> doc.content != [] && ConfigLaw(r.config, doc.content[0].content)
    ensures r == Err(NoConfig) <==> doc.NoText?
    ensures r == Err(BadYaml) <==> doc.Unparsable?
    ensures r == Err(NotAMapping) <==> doc.Root? && (doc.content == [] || doc.content[0].kind != MappingNode)
    ensures r == Err(NoJobs) <==> doc.Root? && doc.content != [] && doc.content[0].kind == MappingNode &&
                                  forall i: nat :: !JobAt(doc.content[0].content, i)
  {
    if doc.Root? && doc.content != [] {
      ConfigMeetsLaw(doc.content[0].content);
    }
    hide JobsOf, GlobalsOf, ConfigLaw, JobAt, GlobalsLaw;
    if doc.NoText? {
      return Err(NoConfig);
    }
    if doc.Unparsable? {
      return Err(BadYaml);
    }
    if |doc.content| == 0 || doc.content[0].kind != MappingNode {
      return Err(NotAMapping);
    }
    var g := ParseGlobals(doc.content[0]);
    var stages := if |g.stages| == 0 then ["build", "test", "deploy"] else g.stages;
    var jobs := ParseJobs(doc.content[0], g);
    if |jobs| == 0 {
      return Err(NoJobs);
    }
    return Ok(Config(stages, jobs));
  }

  // ----- What the parse depends on -----

  lemma {:induction false} LastValueFiltered(es: seq<Entry>, key: string, keep: Entry -> bool)
    requires forall n :: keep((key, n))
    ensures LastValue(es, key) == LastValue(FilterEntries(es, keep), key)
  {
    if es != [] {
      var n := |es| - 1;
      LastValueFiltered(es[..n], key, keep);
      var rest := FilterEntries(es[..n], keep);
      assert rest + [] == rest;
      assert keep((key, es[n].1));
      if keep(es[n]) {
        LastValueSnoc(rest, es[n], key);
      }
    }
  }

  lemma GlobalsFiltered(es: seq<Entry>)
    ensures GlobalsOf(es) == GlobalsOf(FilterEntries(es, IsConfigEntry))
  {
    LastValueFiltered(es, "stages", IsConfigEntry);
    LastValueFiltered(es, "image", IsConfigEntry);
    LastValueFiltered(es, "before_script", IsConfigEntry);
    LastValueFiltered(es, "after_script", IsConfigEntry);
    LastValueFiltered(es, "variables", IsConfigEntry);
  }

  lemma {:induction false} JobsFiltered(es: seq<Entry>, g: Globals)
    ensures JobsOf(es, g) == JobsOf(FilterEntries(es, IsJobEntry), g)
  {
    if es != [] {
      var n := |es| - 1;
      JobsFiltered(es[..n], g);
      var rest := FilterEntries(es[..n], IsJobEntry);
      assert (rest + [es[n]])[..|rest|] == rest;
      assert rest + [] == rest;
    }
  }

  /**
   * Where the global keys stand among the jobs does not matter: two top-level mappings with the same
   * subsequence of configuration keys and the same subsequence of job keys parse alike.
   */
  lemma InterleavingIrrelevant(a: Node, b: Node)
    requires a.kind == b.kind == MappingNode
    requires FilterEntries(Entries(a.content), IsConfigEntry) == FilterEntries(Entries(b.content), IsConfigEntry)
    requires FilterEntries(Entries(a.content), IsJobEntry) == FilterEntries(Entries(b.content), IsJobEntry)
    ensures Parse(Root([a])) == Parse(Root([b]))
  {
    var ea, eb := Entries(a.content), Entries(b.content);
    GlobalsFiltered(ea);
    GlobalsFiltered(eb);
    JobsFiltered(ea, GlobalsOf(ea));
    JobsFiltered(eb, GlobalsOf(eb));
  }

  /** A parsed configuration always has a stage and a job. */
  lemma ParsedIsPopulated(doc: Document)
    requires Parse(doc).Ok?
    ensures Parse(doc).config.stages != [] && Parse(doc).config.jobs != []
  {
  }

  // ----- Variable precedence -----

  /** A runner reads the list with the last definition winning. */
  function Lookup(vars: seq<Variable>, key: string): Option<string> {
    if vars == [] then None
    else
      var last := vars[|vars| - 1];
      if last.key == key then Some(last.value) else Lookup(vars[..|vars| - 1], key)
  }

  lemma {:induction false} LookupAppend(a: seq<Variable>, b: seq<Variable>, key: string)
    ensures Lookup(a + b, key) == if Lookup(b, key).Some? then Lookup(b, key) else Lookup(a, key)
  {
    if b == [] {
      assert a + b == a;
    } else {
      var n := |b| - 1;
      assert (a + b)[..|a + b| - 1] == a + b[..n];
      LookupAppend(a, b[..n], key);
    }
  }

  /** The variables of a job response (runner_api.go): the predefined ones, then the job's own. */
  function AssembleVariables(predefined: seq<Variable>, job: Job): seq<Variable> {
    predefined + job.variables
  }

  /** Job variables win over global ones, which win over predefined ones. */
  lemma VariablePrecedence(
      predefined: seq<Variable>, job: Job, name: string, content: seq<Node>, g: Globals, key: string)
    requires JobLaw(job, name, content, g)
    ensures Lookup(AssembleVariables(predefined, job), key) ==
            if Lookup(Definitions(content, 0), key).Some? then Lookup(Definitions(content, 0), key)
            else if Lookup(g.variables, key).Some? then Lookup(g.variables, key)
            else Lookup(predefined, key)
  {
    hide Decides, Definitions;
    LookupAppend(predefined, job.variables, key);
    LookupAppend(g.variables, Definitions(content, 0), key);
  }
}
