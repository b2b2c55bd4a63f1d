/**
 * ObjectLabelHandler: turns the raw label list of one detection into the word
 * grid's entries. Labels are de-duplicated ignoring case (first-seen casing
 * and order kept), each unique label gets a prompt and the next id of a
 * counter that starts at 13 and only grows, and the previous entries are
 * replaced wholesale.
 *
 * The phrase callback of the phrase generator runs synchronously, so the
 * per-label promises of the source settle in list order; the model runs them
 * as one loop.
 */
module ObjectLabels {
  import opened Wrappers
  import opened Text
  import GroqApi

  datatype DetectedObjectData = DetectedObjectData(id: int, word: string, prompt: string)

  /** The first id the handler hands out. */
  const FirstId: int := 13

  /** The objects `checkForSpecificObjects` looks for, in the order it reports them. */
  const ObjectsToFind: seq<string> := ["book", "poster", "pizza", "phone", "laptop"]

  // ---------------------------------------------------------------------------
  // De-duplication: Array.from(new Set(labels.map(l => l.toLowerCase())))
  //                   .map(key => labels.find(l => l.toLowerCase() === key) || key)

  function Lowers(labels: seq<string>): seq<string> {
    seq(|labels|, i requires 0 <= i < |labels| => Lower(labels[i]))
  }

  predicate NoRepeats<T(==)>(s: seq<T>) {
    forall i, j :: 0 <= i < j < |s| ==> s[i] != s[j]
  }

  /** The position of the first occurrence of `x` in `s`. */
  function FirstIndex<T(==)>(s: seq<T>, x: T): (k: nat)
    requires x in s
    ensures k < |s| && s[k] == x && x !in s[..k]
  {
    if s[0] == x then 0
    else
      var k := FirstIndex(s[1..], x);
      assert s[..k + 1] == [s[0]] + s[1..][..k];
      1 + k
  }

  /** A JavaScript `Set` built from `s`, read back as an array: the values of `s` without repeats, in insertion order. */
  function Distinct<T(==)>(s: seq<T>): seq<T>
    decreases |s|
  {
    if s == [] then []
    else
      var d := Distinct(s[..|s| - 1]);
      if s[|s| - 1] in d then d else d + [s[|s| - 1]]
  }

  lemma {:induction false} FirstIndexSnoc<T>(s: seq<T>, x: T, y: T)
    requires y in s
    ensures FirstIndex(s + [x], y) == FirstIndex(s, y)
  {
    if s[0] != y {
      assert (s + [x])[1..] == s[1..] + [x];
      FirstIndexSnoc(s[1..], x, y);
    }
  }

  lemma {:induction false} FirstIndexOfNew<T>(s: seq<T>, x: T)
    requires x !in s
    ensures FirstIndex(s + [x], x) == |s|
  {
    if s != [] {
      assert (s + [x])[1..] == s[1..] + [x];
      FirstIndexOfNew(s[1..], x);
    }
  }

  /** `Distinct` loses no value and invents none. */
  lemma {:induction false} DistinctMembers<T>(s: seq<T>, y: T)
    ensures y in Distinct(s) <==> y in s
  {
    if s != [] {
      var init := s[..|s| - 1];
      assert s == init + [s[|s| - 1]];
      DistinctMembers(init, y);
    }
  }

  /** `Distinct` keeps every value once, loses none, and lists them in order of first occurrence. */
  lemma {:induction false} DistinctSpec<T>(s: seq<T>)
    ensures NoRepeats(Distinct(s))
    ensures forall x :: x in Distinct(s) <==> x in s
    ensures forall i, j :: 0 <= i < j < |Distinct(s)| ==>
              FirstIndex(s, Distinct(s)[i]) < FirstIndex(s, Distinct(s)[j])
  {
    forall x ensures x in Distinct(s) <==> x in s {
      DistinctMembers(s, x);
    }
    if s != [] {
      var init, x := s[..|s| - 1], s[|s| - 1];
      assert s == init + [x];
      DistinctSpec(init);
      var d := Distinct(init);
      forall y | y in d ensures FirstIndex(s, y) == FirstIndex(init, y) {
        DistinctMembers(init, y);
        FirstIndexSnoc(init, x, y);
      }
      if x !in d {
        FirstIndexOfNew(init, x);
        forall y | y in d ensures FirstIndex(init, y) < |init| {
          DistinctMembers(init, y);
        }
      }
    }
  }

  /** `labels.find(l => l.toLowerCase() === key)`: the first label whose lower-case form is `key`. */
  function Find(labels: seq<string>, key: string): (found: Option<string>)
    ensures key in Lowers(labels) ==> found == Some(labels[FirstIndex(Lowers(labels), key)])
    ensures key !in Lowers(labels) ==> found == None
  {
    if labels == [] then None
    else if Lower(labels[0]) == key then
      assert Lowers(labels)[0] == key;
      Some(labels[0])
    else
      assert Lowers(labels) == [Lower(labels[0])] + Lowers(labels[1..]);
      Find(labels[1..], key)
  }

  /** `labels.find(...) || key`: the empty label is falsy, so it falls back to the key. */
  function FindOrKey(labels: seq<string>, key: string): string {
    match Find(labels, key)
    case Some(l) => if l != "" then l else key
    case None => key
  }

  /** The case-insensitively unique labels of one detection. */
  function UniqueLabels(labels: seq<string>): seq<string> {
    var keys := Distinct(Lowers(labels));
    seq(|keys|, i requires 0 <= i < |keys| => FindOrKey(labels, keys[i]))
  }

  /**
   * The unique labels: no two equal ignoring case; every input label has one
   * that matches it ignoring case; each is the first input label with its
   * lower-case form; they come in order of first occurrence.
   */
  lemma {:induction false} UniqueLabelsSpec(labels: seq<string>)
    ensures |UniqueLabels(labels)| <= |labels|
    ensures forall i, j :: 0 <= i < j < |UniqueLabels(labels)| ==>
              Lower(UniqueLabels(labels)[i]) != Lower(UniqueLabels(labels)[j])
    ensures forall k :: 0 <= k < |labels| ==>
              exists i :: 0 <= i < |UniqueLabels(labels)| && Lower(UniqueLabels(labels)[i]) == Lower(labels[k])
    ensures forall i :: 0 <= i < |UniqueLabels(labels)| ==>
              Lower(UniqueLabels(labels)[i]) in Lowers(labels) &&
              UniqueLabels(labels)[i] == labels[FirstIndex(Lowers(labels), Lower(UniqueLabels(labels)[i]))]
    ensures forall i, j :: 0 <= i < j < |UniqueLabels(labels)| ==>
              FirstIndex(Lowers(labels), Lower(UniqueLabels(labels)[i])) <
              FirstIndex(Lowers(labels), Lower(UniqueLabels(labels)[j]))
  {
    var lows := Lowers(labels);
    var keys := Distinct(lows);
    var u := UniqueLabels(labels);
    DistinctSpec(lows);
    forall i | 0 <= i < |keys|
      ensures Lower(u[i]) == keys[i] && u[i] == labels[FirstIndex(lows, keys[i])]
    {
      var fi := FirstIndex(lows, keys[i]);
      assert Lower(labels[fi]) == keys[i];
      if labels[fi] == "" {
        assert keys[i] == "";
      }
    }
    forall k | 0 <= k < |labels|
      ensures exists i :: 0 <= i < |u| && Lower(u[i]) == Lower(labels[k])
    {
      assert lows[k] in keys;
      var i :| 0 <= i < |keys| && keys[i] == lows[k];
      assert Lower(u[i]) == Lower(labels[k]);
    }
    DistinctLength(lows);
  }

  /** No more distinct values than values. */
  lemma {:induction false} DistinctLength<T>(s: seq<T>)
    ensures |Distinct(s)| <= |s|
  {
    if s != [] {
      DistinctLength(s[..|s| - 1]);
    }
  }

  // ---------------------------------------------------------------------------
  // Word and prompt of one entry

  /** `capitalizeFirstLetter`: the first character upper-cased, the rest unchanged. */
  function Capitalize(s: string): (r: string)
    ensures |r| == |s|
    ensures s != [] ==> r[0] == UpperChar(s[0]) && r[1..] == s[1..]
    ensures Lower(r) == Lower(s)
  {
    if s == [] then [] else [UpperChar(s[0])] + s[1..]
  }

  /** The position of the first colon in `s`. */
  function FirstColon(s: string): (k: Option<nat>)
    ensures k.Some? ==> k.value < |s| && s[k.value] == ':' && ':' !in s[..k.value]
    ensures k.None? ==> ':' !in s
  {
    if s == [] then None
    else if s[0] == ':' then Some(0)
    else
      match FirstColon(s[1..])
      case None => None
      case Some(k) =>
        assert s[..k + 1] == [s[0]] + s[1..][..k];
        Some(k + 1)
  }

  /** The first colon is where the text says it is. */
  lemma FirstColonAt(s: string, k: nat)
    requires k < |s| && s[k] == ':' && ':' !in s[..k]
    ensures FirstColon(s) == Some(k)
  {
  }

  /** What the `\s*` of the prefix pattern consumes: the leading white space. */
  function DropLeadingWhitespace(s: string): (r: string)
    ensures |r| <= |s| && r == s[|s| - |r|..] && IsBlank(s[..|s| - |r|])
    ensures r == [] || !IsWhitespace(r[0])
  {
    if s != [] && IsWhitespace(s[0]) then
      var r := DropLeadingWhitespace(s[1..]);
      var n := |s| - |r|;
      assert s[..n] == [s[0]] + s[1..][..n - 1];
      assert forall i :: 1 <= i < n ==> s[..n][i] == s[1..][..n - 1][i - 1];
      r
    else s
  }

  /**
   * `prompt.replace(/^[^:]+:\s*\/, '')`: when the text has a colon that is not
   * its first character, everything up to and including the first colon and
   * the white space after it is removed; otherwise the text is unchanged.
   */
  function StripPrefix(s: string): (r: string)
    ensures |r| <= |s| && r == s[|s| - |r|..]
    ensures (':' !in s || s[0] == ':') ==> r == s
  {
    match FirstColon(s)
    case Some(k) => if k > 0 then DropLeadingWhitespace(s[k + 1..]) else s
    case None => s
  }

  /** Text after a colon-free, non-empty head and its colon is kept, less leading white space. */
  lemma {:induction false} StripAfterColon(head: string, body: string)
    requires head != [] && ':' !in head
    ensures StripPrefix(head + ":" + body) == DropLeadingWhitespace(body)
  {
    var s := head + ":" + body;
    assert s[..|head|] == head && s[|head|] == ':';
    FirstColonAt(s, |head|);
    assert s[|head| + 1..] == body;
  }

  /** The generator's marker is removed exactly: what remains is the phrase less any leading white space. */
  lemma StripAILikePrefix(phrase: string)
    ensures StripPrefix(GroqApi.AILikePrefix + phrase) == DropLeadingWhitespace(phrase)
  {
    assert GroqApi.AILikePrefix + phrase == "🤖 AI-like" + ":" + (" " + phrase);
    StripAfterColon("🤖 AI-like", " " + phrase);
    assert (" " + phrase)[1..] == phrase;
  }

  /** One space before a visible character is all that is dropped. */
  lemma DropOneSpace(t: string)
    requires t != [] && !IsWhitespace(t[0])
    ensures DropLeadingWhitespace([' '] + t) == t
  {
    assert ([' '] + t)[1..] == t;
  }

  /** The error text loses its "Error: " prefix. */
  lemma StripNoObjectError()
    ensures StripPrefix(GroqApi.NoObjectError) == "No object detected"
  {
    var rest := GroqApi.NoObjectText;
    assert "Error: " == "Error" + ":" + [' '];
    assert GroqApi.NoObjectError == "Error" + ":" + ([' '] + rest);
    StripAfterColon("Error", [' '] + rest);
    assert rest[0] == 'N' && !IsWhitespace('N');
    DropOneSpace(rest);
  }

  /** The prompt an entry gets for a unique label (with the phrase generator: its text less the prefix). */
  function PromptFor(name: string, hasGroq: bool, r: GroqApi.Unit): (prompt: string)
    ensures hasGroq && !IsBlank(name) ==> prompt == GroqApi.GenerateAILikePrompt(name, r)
    ensures hasGroq && IsBlank(name) ==> prompt == "No object detected"
    ensures !hasGroq ==> prompt == "I see a " + name + ". What would you like to know about it?"
  {
    if hasGroq then
      if IsBlank(name) then
        StripNoObjectError();
        StripPrefix(GroqApi.GenerateConversationalPrompt(name, r))
      else
        StripAILikePrefix(GroqApi.GenerateAILikePrompt(name, r));
        StripPrefix(GroqApi.GenerateConversationalPrompt(name, r))
    else
      "I see a " + name + ". What would you like to know about it?"
  }

  /** The entries built for one detection: unique label i gets id `firstId + i`. */
  function Entries(unique: seq<string>, firstId: int, hasGroq: bool, draw: nat -> GroqApi.Unit): seq<DetectedObjectData> {
    seq(|unique|, i requires 0 <= i < |unique| =>
      DetectedObjectData(firstId + i, Capitalize(unique[i]), PromptFor(unique[i], hasGroq, draw(i))))
  }

  /** Entry i has id `firstId + i` and the i-th unique label as its word, up to case. */
  lemma EntriesSpec(unique: seq<string>, firstId: int, hasGroq: bool, draw: nat -> GroqApi.Unit)
    ensures |Entries(unique, firstId, hasGroq, draw)| == |unique|
    ensures forall i :: 0 <= i < |unique| ==>
              Entries(unique, firstId, hasGroq, draw)[i].id == firstId + i &&
              Lower(Entries(unique, firstId, hasGroq, draw)[i].word) == Lower(unique[i])
    ensures forall id :: id in IdsOf(Entries(unique, firstId, hasGroq, draw)) <==> firstId <= id < firstId + |unique|
  {
    var e := Entries(unique, firstId, hasGroq, draw);
    forall i | 0 <= i < |unique|
      ensures e[i].id == firstId + i && Lower(e[i].word) == Lower(unique[i])
    {
      assert e[i].word == Capitalize(unique[i]);
    }
    forall id | firstId <= id < firstId + |unique| ensures id in IdsOf(e) {
      assert e[id - firstId].id == id;
    }
  }

  /** Pushing the entry for label i extends the entries of the first i labels. */
  lemma EntriesSnoc(unique: seq<string>, i: nat, firstId: int, hasGroq: bool, draw: nat -> GroqApi.Unit)
    requires i < |unique|
    ensures Entries(unique[..i + 1], firstId, hasGroq, draw) ==
            Entries(unique[..i], firstId, hasGroq, draw) +
            [DetectedObjectData(firstId + i, Capitalize(unique[i]), PromptFor(unique[i], hasGroq, draw(i)))]
  {
    var longer := Entries(unique[..i + 1], firstId, hasGroq, draw);
    var shorter := Entries(unique[..i], firstId, hasGroq, draw);
    var last := DetectedObjectData(firstId + i, Capitalize(unique[i]), PromptFor(unique[i], hasGroq, draw(i)));
    forall k | 0 <= k < i + 1
      ensures longer[k] == (shorter + [last])[k]
    {
      if k < i {
        assert unique[..i + 1][k] == unique[..i][k];
      }
    }
  }

  // ---------------------------------------------------------------------------
  // Substring queries

  /** `hay.some(h => h.toLowerCase().includes(needle))` */
  function SomeIncludes(hay: seq<string>, needle: string): (b: bool)
    ensures b <==> exists k :: 0 <= k < |hay| && Includes(Lower(hay[k]), needle)
  {
    if hay == [] then false
    else if Includes(Lower(hay[0]), needle) then true
    else
      var b := SomeIncludes(hay[1..], needle);
      assert forall k :: 1 <= k < |hay| ==> hay[1..][k - 1] == hay[k];
      b
  }

  function Words(objects: seq<DetectedObjectData>): seq<string> {
    seq(|objects|, i requires 0 <= i < |objects| => objects[i].word)
  }

  /** The targets among `targets` that some label contains, ignoring case, in the targets' order. */
  function FilterTargets(targets: seq<string>, labels: seq<string>): (found: seq<string>)
    requires NoRepeats(targets)
    ensures forall t :: t in found <==> t in targets && SomeIncludes(labels, Lower(t))
    ensures forall i, j :: 0 <= i < j < |found| ==>
              found[i] in targets && found[j] in targets &&
              FirstIndex(targets, found[i]) < FirstIndex(targets, found[j])
  {
    if targets == [] then []
    else
      var rest := FilterTargets(targets[1..], labels);
      forall t | t in rest ensures FirstIndex(targets, t) == 1 + FirstIndex(targets[1..], t) {
        assert t != targets[0];
      }
      if SomeIncludes(labels, Lower(targets[0])) then [targets[0]] + rest else rest
  }

  /** `checkForSpecificObjects`: the targets, in their fixed order, that some raw label contains ignoring case. */
  function SpecificObjectsFound(labels: seq<string>): (found: seq<string>)
    ensures forall t :: t in found <==>
              t in ObjectsToFind && exists k :: 0 <= k < |labels| && Includes(Lower(labels[k]), Lower(t))
    ensures forall i, j :: 0 <= i < j < |found| ==>
              found[i] in ObjectsToFind && found[j] in ObjectsToFind &&
              FirstIndex(ObjectsToFind, found[i]) < FirstIndex(ObjectsToFind, found[j])
  {
    FilterTargets(ObjectsToFind, labels)
  }

  /**
   * After a detection, a word query matches an entry exactly when it matches
   * one of the raw labels: capitalising and de-duplicating lose nothing a
   * case-insensitive substring test can see.
   */
  lemma {:induction false} EntriesMatchLabels(labels: seq<string>, firstId: int, hasGroq: bool,
                                              draw: nat -> GroqApi.Unit, needle: string)
    ensures SomeIncludes(Words(Entries(UniqueLabels(labels), firstId, hasGroq, draw)), needle)
        <==> SomeIncludes(labels, needle)
  {
    var u := UniqueLabels(labels);
    var entries := Entries(u, firstId, hasGroq, draw);
    var words := Words(entries);
    UniqueLabelsSpec(labels);
    EntriesSpec(u, firstId, hasGroq, draw);
    forall i | 0 <= i < |u| ensures Lower(words[i]) == Lower(u[i]) {
      assert words[i] == entries[i].word;
    }
    if SomeIncludes(labels, needle) {
      var k :| 0 <= k < |labels| && Includes(Lower(labels[k]), needle);
      var i :| 0 <= i < |u| && Lower(u[i]) == Lower(labels[k]);
      assert Includes(Lower(words[i]), needle);
    }
    if SomeIncludes(words, needle) {
      var i :| 0 <= i < |words| && Includes(Lower(words[i]), needle);
      var k := FirstIndex(Lowers(labels), Lower(u[i]));
      assert labels[k] == u[i];
      assert Includes(Lower(labels[k]), needle);
    }
  }

  // ---------------------------------------------------------------------------
  // The component

  /** `gridScriptInstance`, seen only through whether it has a `refreshGrid` function. */
  datatype GridRef = GridRef(hasRefreshGrid: bool)

  /** Calls the handler makes after a detection has been processed. */
  datatype HandlerEvent =
    | SpecificObjectFound(target: string)
      /** `refreshGrid()`, with what the grid then reads back: the entries and the next id. */
    | RefreshGrid(objects: seq<DetectedObjectData>, nextId: int)

  function FoundEvents(found: seq<string>): seq<HandlerEvent> {
    seq(|found|, i requires 0 <= i < |found| => SpecificObjectFound(found[i]))
  }

  function IdsOf(objects: seq<DetectedObjectData>): set<int> {
    set i | 0 <= i < |objects| :: objects[i].id
  }

  class ObjectLabelHandler {
    /** Whether the `groqAPI` input is assigned. */
    const hasGroq: bool
    var gridScriptInstance: Option<GridRef>
    var detectedObjects: seq<DetectedObjectData>
    var nextId: int
    var lastProcessedLabels: seq<string>
    /** Every id handed out so far. */
    ghost var issued: set<int>
    ghost var events: seq<HandlerEvent>

    /**
     * The entries are those of the last detection: one per unique label, in
     * order, with consecutive ids just below `nextId`; every id ever handed out
     * lies in [13, nextId).
     */
    ghost predicate Valid()
      reads this
    {
      && FirstId + |detectedObjects| <= nextId
      && (forall id :: id in issued ==> FirstId <= id < nextId)
      && |detectedObjects| == |UniqueLabels(lastProcessedLabels)|
      && (forall i :: 0 <= i < |detectedObjects| ==>
            && detectedObjects[i].id == nextId - |detectedObjects| + i
            && detectedObjects[i].id in issued
            && Lower(detectedObjects[i].word) == Lower(UniqueLabels(lastProcessedLabels)[i]))
    }

    constructor (hasGroq: bool)
      ensures Valid()
      ensures this.hasGroq == hasGroq && gridScriptInstance == None
      ensures detectedObjects == [] && lastProcessedLabels == [] && nextId == FirstId
      ensures issued == {} && events == []
    {
      this.hasGroq := hasGroq;
      gridScriptInstance := None;
      detectedObjects := [];
      nextId := FirstId;
      lastProcessedLabels := [];
      issued := {};
      events := [];
    }

    /**
     * `handleDetectedObjects`: replaces the entries with one per unique label
     * (ids from `nextId` on), advances `nextId` past them, reports the specific
     * objects found and then refreshes the grid if it can. `draw(i)` is the
     * random draw made for the i-th unique label's phrase.
     */
    method HandleDetectedObjects(labels: seq<string>, draw: nat -> GroqApi.Unit)
      requires Valid()
      modifies this
      ensures Valid()
      ensures lastProcessedLabels == labels
      ensures detectedObjects == Entries(UniqueLabels(labels), old(nextId), hasGroq, draw)
      ensures nextId == old(nextId) + |UniqueLabels(labels)|
      ensures issued == old(issued) + IdsOf(detectedObjects)
      ensures forall i :: 0 <= i < |detectedObjects| ==>
                detectedObjects[i].id !in old(issued) && old(nextId) <= detectedObjects[i].id < nextId
      ensures gridScriptInstance == old(gridScriptInstance)
      ensures events == old(events) + FoundEvents(SpecificObjectsFound(labels)) +
                (if gridScriptInstance.Some? && gridScriptInstance.value.hasRefreshGrid then [RefreshGrid(detectedObjects, nextId)] else [])
    {
      lastProcessedLabels := labels;
      var unique := UniqueLabels(labels);
      BuildEntries(unique, draw);
      EntriesSpec(unique, nextId, hasGroq, draw);
      LogDetectedObjects();
      NotifyDetection();
    }

    /** The `then` continuation: the specific objects are reported, then the grid is refreshed if it can be. */
    method NotifyDetection()
      modifies this`events
      ensures events == old(events) + FoundEvents(SpecificObjectsFound(lastProcessedLabels)) +
                (if gridScriptInstance.Some? && gridScriptInstance.value.hasRefreshGrid then [RefreshGrid(detectedObjects, nextId)] else [])
    {
      var found := SpecificObjectsFound(lastProcessedLabels);
      events := events + FoundEvents(found);
      if gridScriptInstance.Some? && gridScriptInstance.value.hasRefreshGrid {
        events := events + [RefreshGrid(detectedObjects, nextId)];
      }
    }

    /** The `forEach` over the unique labels: one entry per label, in order, with ids from `nextId` on. */
    method BuildEntries(unique: seq<string>, draw: nat -> GroqApi.Unit)
      modifies this`detectedObjects
      ensures detectedObjects == Entries(unique, nextId, hasGroq, draw)
    {
      detectedObjects := [];
      var i := 0;
      while i < |unique|
        invariant 0 <= i <= |unique|
        invariant detectedObjects == Entries(unique[..i], nextId, hasGroq, draw)
      {
        PushEntry(unique, i, draw);
        i := i + 1;
      }
      assert unique[..i] == unique;
    }

    /** The `forEach` callback for label i: it appends that label's entry, so the entries so far are those of the first i + 1 labels. */
    method PushEntry(unique: seq<string>, i: nat, draw: nat -> GroqApi.Unit)
      requires i < |unique| && detectedObjects == Entries(unique[..i], nextId, hasGroq, draw)
      modifies this`detectedObjects
      ensures detectedObjects == Entries(unique[..i + 1], nextId, hasGroq, draw)
    {
      var name := unique[i];
      var prompt := PromptFor(name, hasGroq, draw(i));
      EntriesSnoc(unique, i, nextId, hasGroq, draw);
      detectedObjects := detectedObjects + [DetectedObjectData(nextId + i, Capitalize(name), prompt)];
    }

    /** `logDetectedObjects`: the entries' ids are spent; the next detection starts after them. */
    method LogDetectedObjects()
      modifies this`nextId, this`issued
      ensures nextId == old(nextId) + |detectedObjects|
      ensures issued == old(issued) + IdsOf(detectedObjects)
    {
      issued := issued + IdsOf(detectedObjects);
      nextId := nextId + |detectedObjects|;
    }

    /** `hasObject`: some entry's word contains the name, ignoring case. */
    function HasObject(objectName: string): (b: bool)
      reads this
      ensures b <==> exists i :: 0 <= i < |detectedObjects| &&
                        Includes(Lower(detectedObjects[i].word), Lower(objectName))
    {
      assert forall i :: 0 <= i < |detectedObjects| ==> Words(detectedObjects)[i] == detectedObjects[i].word;
      SomeIncludes(Words(detectedObjects), Lower(objectName))
    }

    /** `getObjectCount`: the number of case-insensitively distinct labels of the last detection. */
    function GetObjectCount(): (n: nat)
      reads this
      requires Valid()
      ensures n == |UniqueLabels(lastProcessedLabels)|
    {
      |detectedObjects|
    }

    /** `getDetectedObjects`: a copy of the entries; their ids rise by one and end just below `nextId`, and no two words match ignoring case. */
    function GetDetectedObjects(): (objects: seq<DetectedObjectData>)
      reads this
      requires Valid()
      ensures |objects| == GetObjectCount()
      ensures forall i :: 0 <= i < |objects| ==> objects[i].id == nextId - |objects| + i
      ensures forall i, j :: 0 <= i < j < |objects| ==> Lower(objects[i].word) != Lower(objects[j].word)
    {
      UniqueLabelsSpec(lastProcessedLabels);
      detectedObjects
    }
  }

  /**
   * Ids across detections: whatever the labels, the second detection's ids
   * all lie above the first's, so no id is ever handed out twice.
   */
  lemma {:induction false} IdsIncreaseAcrossDetections(first: seq<string>, second: seq<string>, start: int,
                                                       hasGroq: bool, d1: nat -> GroqApi.Unit, d2: nat -> GroqApi.Unit)
    ensures var e1 := Entries(UniqueLabels(first), start, hasGroq, d1);
            var e2 := Entries(UniqueLabels(second), start + |e1|, hasGroq, d2);
            forall i, j :: 0 <= i < |e1| && 0 <= j < |e2| ==> e1[i].id < e2[j].id
  {
  }
}
