/** The model registry (App.tsx:321-427): the list of installed models,
    the simulated download, the choice of the active model, the
    requirements estimate and the mapping of GitHub search results. */
module ModelRegistry {

  import opened Types
  import opened Text

  predicate HasModel(models: seq<AIModel>, id: string) {
    exists k :: 0 <= k < |models| && models[k].id == id
  }

  predicate UniqueModelIds(models: seq<AIModel>) {
    forall i, j :: 0 <= i < j < |models| ==> models[i].id != models[j].id
  }

  /** The three per-model updates the download writes
      (App.tsx:331-333, 343, 346). */
  datatype Patch = ToDownloading | ToProgress(percent: int) | ToReady

  function Apply(m: AIModel, p: Patch): (r: AIModel)
    ensures r.id == m.id
  {
    match p
    case ToDownloading => m.(status := Downloading, progress := Some(0))
    case ToProgress(n) => m.(progress := Some(n))
    case ToReady => m.(status := Ready, progress := None)
  }

  /** `prev.map(m => m.id === id ? patched : m)`: the models with that id
      are patched and every other model is left as it was, in place. */
  function UpdateWhere(models: seq<AIModel>, id: string, p: Patch): (r: seq<AIModel>)
    ensures |r| == |models|
    ensures forall k :: 0 <= k < |models| && models[k].id == id ==> r[k] == Apply(models[k], p)
    ensures forall k :: 0 <= k < |models| && models[k].id != id ==> r[k] == models[k]
  {
    seq(|models|, k requires 0 <= k < |models| => if models[k].id == id then Apply(models[k], p) else models[k])
  }

  lemma UpdateKeepsIds(models: seq<AIModel>, id: string, p: Patch)
    ensures forall k :: 0 <= k < |models| ==> UpdateWhere(models, id, p)[k].id == models[k].id
  {
  }

  /** A progress or ready write after a progress write is the same as the
      later write alone: only the last tick's counter is visible. */
  lemma {:induction false} UpdateAfterProgress(models: seq<AIModel>, id: string, n: int, p: Patch)
    requires p.ToProgress? || p.ToReady?
    ensures UpdateWhere(UpdateWhere(models, id, ToProgress(n)), id, p) == UpdateWhere(models, id, p)
  {
    var once := UpdateWhere(models, id, ToProgress(n));
    var lhs := UpdateWhere(once, id, p);
    var rhs := UpdateWhere(models, id, p);
    forall k | 0 <= k < |models|
      ensures lhs[k] == rhs[k]
    {
      assert once[k].id == models[k].id;
    }
  }

  /** The list after the ticks that wrote `counter` (none when it is 0). */
  function Progressed(models: seq<AIModel>, id: string, counter: int): seq<AIModel> {
    if counter == 0 then models else UpdateWhere(models, id, ToProgress(counter))
  }

  /** What one interval callback writes (App.tsx:342-347): the new
      counter, then Ready once it reaches 100. */
  function TickWrite(models: seq<AIModel>, id: string, next: int): seq<AIModel> {
    var written := UpdateWhere(models, id, ToProgress(next));
    if next >= 100 then UpdateWhere(written, id, ToReady) else written
  }

  /** The list once the counter has reached `counter`. */
  function AfterTicks(models: seq<AIModel>, id: string, counter: int): seq<AIModel> {
    if counter >= 100 then UpdateWhere(models, id, ToReady) else Progressed(models, id, counter)
  }

  /** One more tick writes over whatever the earlier ticks wrote. */
  lemma TickLands(models: seq<AIModel>, id: string, counter: int)
    requires 0 <= counter < 100
    ensures TickWrite(Progressed(models, id, counter), id, counter + 10) == AfterTicks(models, id, counter + 10)
  {
    var next := counter + 10;
    if counter != 0 {
      UpdateAfterProgress(models, id, counter, ToProgress(next));
    }
    assert UpdateWhere(Progressed(models, id, counter), id, ToProgress(next))
      == UpdateWhere(models, id, ToProgress(next));
    if next >= 100 {
      UpdateAfterProgress(models, id, next, ToReady);
    }
  }

  /** handleDownload's list update (App.tsx:330-334): a model not yet in
      the list is appended as Downloading at 0%, one already there is reset
      in place. */
  function StartDownload(models: seq<AIModel>, m: AIModel): (r: seq<AIModel>)
    ensures !HasModel(models, m.id) ==> r == models + [Apply(m, ToDownloading)]
    ensures HasModel(models, m.id) ==> r == UpdateWhere(models, m.id, ToDownloading)
  {
    if HasModel(models, m.id) then UpdateWhere(models, m.id, ToDownloading)
    else models + [Apply(m, ToDownloading)]
  }

  /** Starting a download never introduces a duplicate id. */
  lemma StartDownloadKeepsUnique(models: seq<AIModel>, m: AIModel)
    requires UniqueModelIds(models)
    ensures UniqueModelIds(StartDownload(models, m))
    ensures HasModel(StartDownload(models, m), m.id)
  {
    var r := StartDownload(models, m);
    if HasModel(models, m.id) {
      UpdateKeepsIds(models, m.id, ToDownloading);
      var k :| 0 <= k < |models| && models[k].id == m.id;
      assert r[k].id == m.id;
    } else {
      assert r[|models|].id == m.id;
    }
  }

  /** toggleActive's per-model rule (App.tsx:352-356). */
  function ToggleOne(m: AIModel, id: string): AIModel {
    if m.id == id then m.(status := Active)
    else if m.status == Active then m.(status := Ready)
    else m
  }

  function ToggleActive(models: seq<AIModel>, id: string): (r: seq<AIModel>)
    ensures |r| == |models|
    ensures forall k :: 0 <= k < |models| ==>
      r[k].id == models[k].id && r[k].(status := models[k].status) == models[k]
    ensures forall k :: 0 <= k < |models| && models[k].id == id ==> r[k].status == Active
    ensures forall k :: 0 <= k < |models| && models[k].id != id ==>
      r[k].status == (if models[k].status == Active then Ready else models[k].status)
  {
    if models == [] then [] else [ToggleOne(models[0], id)] + ToggleActive(models[1..], id)
  }

  function CountActive(models: seq<AIModel>): nat {
    if models == [] then 0
    else (if models[0].status == Active then 1 else 0) + CountActive(models[1..])
  }

  /** With unique ids, after toggleActive(id) exactly one model is Active
      when id is in the list, and none otherwise. */
  lemma {:induction false} ToggleLeavesOneActive(models: seq<AIModel>, id: string)
    requires UniqueModelIds(models)
    ensures CountActive(ToggleActive(models, id)) == if HasModel(models, id) then 1 else 0
  {
    if models != [] {
      var rest := models[1..];
      UniqueSplits(models, id);
      ToggleLeavesOneActive(rest, id);
      var r := ToggleActive(models, id);
      assert r[1..] == ToggleActive(rest, id);
      assert CountActive(r) == (if r[0].status == Active then 1 else 0) + CountActive(r[1..]);
    }
  }

  /** The head and the tail of a list with unique ids: the tail's ids are
      unique, and `id` is in the list at the head or in the tail, not both. */
  lemma UniqueSplits(models: seq<AIModel>, id: string)
    requires models != [] && UniqueModelIds(models)
    ensures UniqueModelIds(models[1..])
    ensures HasModel(models, id) <==> models[0].id == id || HasModel(models[1..], id)
    ensures models[0].id == id ==> !HasModel(models[1..], id)
  {
    var rest := models[1..];
    assert forall k :: 0 <= k < |rest| ==> rest[k] == models[k + 1];
    if HasModel(models, id) && models[0].id != id {
      var k :| 0 <= k < |models| && models[k].id == id;
      assert rest[k - 1].id == id;
    }
  }

  /** One rule of estimateRequirements: a label and the keywords that
      select it. */
  datatype Rule = Rule(keywords: seq<string>, labelText: string)

  const ManualSetup := "Manual Setup"

  /** The rules in the order the code tests them (App.tsx:361-366). */
  const RequirementRules: seq<Rule> := [
    Rule(["70b"], "48GB+ VRAM"),
    Rule(["30b", "33b", "34b", "command r"], "24GB+ VRAM"),
    Rule(["13b", "14b", "mixtral"], "16GB VRAM"),
    Rule(["7b", "8b", "mistral", "llama 3"], "8GB VRAM"),
    Rule(["3b", "phi"], "4GB VRAM"),
    Rule(["1b", "tiny"], "2GB VRAM")
  ]

  /** Some keyword of the rule occurs in the text. */
  predicate Matches(rule: Rule, text: string) {
    AnyIncluded(text, rule.keywords)
  }

  predicate AnyIncluded(text: string, keywords: seq<string>) {
    keywords != [] && (Includes(text, keywords[0]) || AnyIncluded(text, keywords[1..]))
  }

  /** No rule before index `i` matches. */
  predicate NoneMatchBefore(rules: seq<Rule>, i: int, text: string)
    requires 0 <= i <= |rules|
  {
    forall j :: 0 <= j < i ==> !Matches(rules[j], text)
  }

  /** An ordered classifier: the label of the first rule that matches. */
  function Classify(rules: seq<Rule>, text: string): string {
    if rules == [] then ManualSetup
    else if Matches(rules[0], text) then rules[0].labelText
    else Classify(rules[1..], text)
  }

  /** The classifier's answer is the first matching rule's label, or the
      default when no rule matches. */
  lemma {:induction false} ClassifyIsFirstMatch(rules: seq<Rule>, text: string)
    ensures (forall i :: 0 <= i < |rules| ==> !Matches(rules[i], text)) ==>
      Classify(rules, text) == ManualSetup
    ensures forall i :: 0 <= i < |rules| && Matches(rules[i], text) && NoneMatchBefore(rules, i, text) ==>
      Classify(rules, text) == rules[i].labelText
  {
    if rules != [] {
      ClassifyIsFirstMatch(rules[1..], text);
      forall i | 0 <= i < |rules| && Matches(rules[i], text) && NoneMatchBefore(rules, i, text)
        ensures Classify(rules, text) == rules[i].labelText
      {
        if i > 0 {
          assert !Matches(rules[0], text);
          assert rules[1..][i - 1] == rules[i];
          forall j | 0 <= j < i - 1 ensures !Matches(rules[1..][j], text) {
            assert rules[1..][j] == rules[j + 1];
          }
        }
      }
      if forall i :: 0 <= i < |rules| ==> !Matches(rules[i], text) {
        forall j | 0 <= j < |rules| - 1 ensures !Matches(rules[1..][j], text) {
          assert rules[1..][j] == rules[j + 1];
        }
      }
    }
  }

  /** estimateRequirements as written: a chain of `includes` tests on the
      lower-cased name and description. */
  function EstimateRequirements(name: string, description: string): (r: string)
    ensures r in {"48GB+ VRAM", "24GB+ VRAM", "16GB VRAM", "8GB VRAM", "4GB VRAM", "2GB VRAM", ManualSetup}
    ensures r == "48GB+ VRAM" <==> Includes(Lower(name + " " + description), "70b")
  {
    var text := Lower(name + " " + description);
    if Includes(text, "70b") then "48GB+ VRAM"
    else if Includes(text, "30b") || Includes(text, "33b") || Includes(text, "34b")
      || Includes(text, "command r") then "24GB+ VRAM"
    else if Includes(text, "13b") || Includes(text, "14b") || Includes(text, "mixtral") then "16GB VRAM"
    else if Includes(text, "7b") || Includes(text, "8b") || Includes(text, "mistral")
      || Includes(text, "llama 3") then "8GB VRAM"
    else if Includes(text, "3b") || Includes(text, "phi") then "4GB VRAM"
    else if Includes(text, "1b") || Includes(text, "tiny") then "2GB VRAM"
    else ManualSetup
  }

  lemma AnyOfOne(t: string, a: string)
    ensures AnyIncluded(t, [a]) <==> Includes(t, a)
  {
    assert [a][1..] == [];
  }

  lemma AnyOfTwo(t: string, a: string, b: string)
    ensures AnyIncluded(t, [a, b]) <==> Includes(t, a) || Includes(t, b)
  {
    assert [a, b][1..] == [b];
    AnyOfOne(t, b);
  }

  lemma AnyOfThree(t: string, a: string, b: string, c: string)
    ensures AnyIncluded(t, [a, b, c]) <==> Includes(t, a) || Includes(t, b) || Includes(t, c)
  {
    assert [a, b, c][1..] == [b, c];
    AnyOfTwo(t, b, c);
  }

  lemma AnyOfFour(t: string, a: string, b: string, c: string, d: string)
    ensures AnyIncluded(t, [a, b, c, d]) <==>
      Includes(t, a) || Includes(t, b) || Includes(t, c) || Includes(t, d)
  {
    assert [a, b, c, d][1..] == [b, c, d];
    AnyOfThree(t, b, c, d);
  }

  /** The if-chain is the ordered classifier over the rule table. */
  lemma EstimateIsClassify(name: string, description: string)
    ensures EstimateRequirements(name, description)
      == Classify(RequirementRules, Lower(name + " " + description))
  {
    var t := Lower(name + " " + description);
    var rs := RequirementRules;
    AnyOfOne(t, "70b");
    AnyOfFour(t, "30b", "33b", "34b", "command r");
    AnyOfThree(t, "13b", "14b", "mixtral");
    AnyOfFour(t, "7b", "8b", "mistral", "llama 3");
    AnyOfTwo(t, "3b", "phi");
    AnyOfTwo(t, "1b", "tiny");
    assert rs[6..] == [];
    assert Classify(rs[5..], t) == if Includes(t, "1b") || Includes(t, "tiny") then "2GB VRAM" else ManualSetup by {
      assert rs[5..][1..] == rs[6..];
    }
    assert Classify(rs[4..], t) == if Includes(t, "3b") || Includes(t, "phi") then "4GB VRAM"
      else Classify(rs[5..], t) by {
      assert rs[4..][1..] == rs[5..];
    }
    assert Classify(rs[3..], t) == if Includes(t, "7b") || Includes(t, "8b") || Includes(t, "mistral")
      || Includes(t, "llama 3") then "8GB VRAM" else Classify(rs[4..], t) by {
      assert rs[3..][1..] == rs[4..];
    }
    assert Classify(rs[2..], t) == if Includes(t, "13b") || Includes(t, "14b") || Includes(t, "mixtral")
      then "16GB VRAM" else Classify(rs[3..], t) by {
      assert rs[2..][1..] == rs[3..];
    }
    assert Classify(rs[1..], t) == if Includes(t, "30b") || Includes(t, "33b") || Includes(t, "34b")
      || Includes(t, "command r") then "24GB+ VRAM" else Classify(rs[2..], t) by {
      assert rs[1..][1..] == rs[2..];
    }
  }

  /** 'Manual Setup' comes back exactly when no keyword of any rule occurs
      in the lower-cased text. */
  lemma ManualSetupIffNoKeyword(name: string, description: string)
    ensures EstimateRequirements(name, description) == ManualSetup <==>
      forall i :: 0 <= i < |RequirementRules| ==>
        !Matches(RequirementRules[i], Lower(name + " " + description))
  {
    EstimateIsClassify(name, description);
    ClassifyDefaultIffNoMatch(RequirementRules, Lower(name + " " + description));
  }

  /** When no rule carries the default as its label, the classifier gives
      the default exactly when no rule matches. */
  lemma {:induction false} ClassifyDefaultIffNoMatch(rules: seq<Rule>, text: string)
    requires forall i :: 0 <= i < |rules| ==> rules[i].labelText != ManualSetup
    ensures Classify(rules, text) == ManualSetup <==>
      forall i :: 0 <= i < |rules| ==> !Matches(rules[i], text)
  {
    if rules != [] {
      var rest := rules[1..];
      assert forall i :: 0 <= i < |rest| ==> rest[i] == rules[i + 1];
      ClassifyDefaultIffNoMatch(rest, text);
      if !Matches(rules[0], text) {
        forall i | 0 < i < |rules| && Matches(rules[i], text)
          ensures !(forall j :: 0 <= j < |rest| ==> !Matches(rest[j], text))
        {
          assert rest[i - 1] == rules[i];
        }
      }
    }
  }

  /** When some rule matches, a first one does. */
  lemma {:induction false} FirstMatching(rules: seq<Rule>, text: string)
    requires exists i :: 0 <= i < |rules| && Matches(rules[i], text)
    ensures exists i :: 0 <= i < |rules| && Matches(rules[i], text) && NoneMatchBefore(rules, i, text)
  {
    if !Matches(rules[0], text) {
      var i :| 0 <= i < |rules| && Matches(rules[i], text);
      assert rules[1..][i - 1] == rules[i];
      FirstMatching(rules[1..], text);
      var i' :| 0 <= i' < |rules| - 1 && Matches(rules[1..][i'], text)
        && NoneMatchBefore(rules[1..], i', text);
      assert rules[1..][i'] == rules[i' + 1];
      forall j | 0 <= j < i' + 1 ensures !Matches(rules[j], text) {
        if j > 0 { assert rules[j] == rules[1..][j - 1]; }
      }
    }
  }

  /** The fields of a GitHub search item the mapping reads
      (App.tsx:384-394). */
  datatype GitHubItem = GitHubItem(
    id: int,
    name: string,
    ownerLogin: string,
    description: Option<string>,
    htmlUrl: string,
    stargazersCount: int)

  /** `item.description || fallback`: a missing or empty description
      takes the fallback. */
  function DescriptionOr(d: Option<string>, fallback: string): (r: string)
    ensures r == fallback <==> d.None? || d.value == "" || d.value == fallback
    ensures r != fallback ==> d == Some(r)
  {
    if d.Some? && d.value != "" then d.value else fallback
  }

  const NoDescription := "No description provided."

  /** A search result as a registry model: local, not installed, with the
      estimate computed from the name and the raw description. */
  function FromGitHub(item: GitHubItem): (r: AIModel)
    ensures r.id == DecimalString(item.id) && r.name == item.name && r.provider == item.ownerLogin
    ensures r.kind == Local && r.status == NotInstalled && r.progress.None?
    ensures r.description == DescriptionOr(item.description, NoDescription)
    ensures r.description != "" && r.requirements != ""
    ensures r.downloadUrl == Some(item.htmlUrl) && r.stars == Some(item.stargazersCount)
  {
    AIModel(
      DecimalString(item.id), item.name, item.ownerLogin, Local,
      DescriptionOr(item.description, NoDescription),
      EstimateRequirements(item.name, DescriptionOr(item.description, "")),
      NotInstalled, None, None, Some(item.htmlUrl), Some(item.stargazersCount))
  }

  /** The requirements of a mapped result are the estimate of its name
      and raw description, and are one of the seven labels. */
  lemma FromGitHubRequirements(item: GitHubItem)
    ensures FromGitHub(item).requirements
      == Classify(RequirementRules, Lower(item.name + " " + DescriptionOr(item.description, "")))
    ensures FromGitHub(item).requirements in
      {"48GB+ VRAM", "24GB+ VRAM", "16GB VRAM", "8GB VRAM", "4GB VRAM", "2GB VRAM", ManualSetup}
  {
    EstimateIsClassify(item.name, DescriptionOr(item.description, ""));
  }

  function MapItems(items: seq<GitHubItem>): (r: seq<AIModel>)
    ensures |r| == |items|
    ensures forall k :: 0 <= k < |items| ==> r[k] == FromGitHub(items[k])
  {
    seq(|items|, k requires 0 <= k < |items| => FromGitHub(items[k]))
  }

  /** The four models the registry starts with (App.tsx:18-61). */
  const InitialModels: seq<AIModel> := [
    AIModel("gemini-3-flash", "Gemini 3 Flash", "Google", Cloud,
      "Fastest multimodal model for high-frequency tasks.", "API Key",
      Active, None, Some(true), None, Some(2400)),
    AIModel("gemini-3-pro", "Gemini 3 Pro", "Google", Cloud,
      "Best-in-class model for complex reasoning and coding.", "Paid API Key",
      Ready, None, Some(true), None, Some(3100)),
    AIModel("llama-3-8b", "Llama 3 (8B)", "Ollama", Local,
      "Powerful open-weight model optimized for consumer hardware.", "8GB VRAM",
      NotInstalled, None, None, None, Some(52400)),
    AIModel("mistral-7b", "Mistral 7B", "Ollama", Local,
      "High performance small language model.", "4GB VRAM",
      Ready, None, None, None, Some(38200))
  ]

  /** The starting list has unique ids and exactly one Active model. */
  lemma InitialModelsWellFormed()
    ensures UniqueModelIds(InitialModels)
    ensures CountActive(InitialModels) == 1
  {
    assert InitialModels[1..][1..][1..][1..] == [];
  }

  datatype Tab = Installed | Search

  /** The registry component's state. */
  class Registry {
    var activeTab: Tab
    var models: seq<AIModel>
    var searchQuery: string
    var searchResults: seq<AIModel>
    var isSearching: bool

    constructor()
      ensures activeTab == Installed && models == InitialModels
      ensures searchQuery == "" && searchResults == [] && !isSearching
    {
      activeTab := Installed;
      models := InitialModels;
      searchQuery := "";
      searchResults := [];
      isSearching := false;
    }

    /** The synchronous part of handleDownload (App.tsx:330-337). */
    method HandleDownload(m: AIModel)
      modifies this
      ensures models == StartDownload(old(models), m)
      ensures activeTab == Installed
      ensures searchQuery == old(searchQuery) && searchResults == old(searchResults)
      ensures isSearching == old(isSearching)
    {
      models := StartDownload(models, m);
      activeTab := Installed;
    }

    /** One interval callback (App.tsx:342-347): the counter grows by 10 and
        is written; at 100 or more the model becomes Ready. */
    method Tick(id: string, counter: int) returns (next: int, done: bool)
      modifies this
      ensures next == counter + 10 && done == (next >= 100)
      ensures models == TickWrite(old(models), id, next)
      ensures activeTab == old(activeTab) && searchQuery == old(searchQuery)
      ensures searchResults == old(searchResults) && isSearching == old(isSearching)
    {
      next := counter + 10;
      models := UpdateWhere(models, id, ToProgress(next));
      done := next >= 100;
      if done {
        models := UpdateWhere(models, id, ToReady);
      }
    }

    /** handleDownload followed by its interval running to completion with
        nothing in between: the model ends Ready with no progress, every
        other model unchanged. */
    method Download(m: AIModel) returns (ticks: nat)
      modifies this
      ensures models == UpdateWhere(StartDownload(old(models), m), m.id, ToReady)
      ensures ticks == 10
      ensures activeTab == Installed && searchQuery == old(searchQuery)
      ensures searchResults == old(searchResults) && isSearching == old(isSearching)
    {
      HandleDownload(m);
      ghost var started := models;
      var counter := 0;
      var done := false;
      ticks := 0;
      while !done
        invariant 0 <= counter <= 100 && counter % 10 == 0 && ticks == counter / 10
        invariant done <==> counter == 100
        invariant models == AfterTicks(started, m.id, counter)
        invariant activeTab == Installed && searchQuery == old(searchQuery)
        invariant searchResults == old(searchResults) && isSearching == old(isSearching)
        decreases 100 - counter
      {
        TickLands(started, m.id, counter);
        counter, done := Tick(m.id, counter);
        ticks := ticks + 1;
      }
    }

    method Activate(id: string)
      modifies this
      ensures models == ToggleActive(old(models), id)
      ensures activeTab == old(activeTab) && searchQuery == old(searchQuery)
      ensures searchResults == old(searchResults) && isSearching == old(isSearching)
    {
      models := ToggleActive(models, id);
    }

    method SetSearchQuery(q: string)
      modifies this
      ensures searchQuery == q
      ensures models == old(models) && activeTab == old(activeTab)
      ensures searchResults == old(searchResults) && isSearching == old(isSearching)
    {
      searchQuery := q;
    }

    /** performSearch (App.tsx:370-426) with the fetch abstracted: `fetched`
        is the parsed item list or the thrown error, `fallback` the results
        shown when it fails. A blank query does nothing. */
    method PerformSearch(fetched: Result<seq<GitHubItem>>, fallback: seq<AIModel>)
      modifies this
      ensures AllWhitespace(old(searchQuery)) ==>
        searchResults == old(searchResults) && isSearching == old(isSearching)
      ensures !AllWhitespace(old(searchQuery)) ==>
        searchResults == (if fetched.Ok? then MapItems(fetched.value) else fallback)
        && !isSearching
      ensures models == old(models) && activeTab == old(activeTab) && searchQuery == old(searchQuery)
    {
      if IsBlank(searchQuery) {
        return;
      }
      isSearching := true;
      searchResults := [];
      if fetched.Ok? {
        searchResults := MapItems(fetched.value);
      } else {
        searchResults := fallback;
      }
      isSearching := false;
    }
  }
}
