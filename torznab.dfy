/** The Jackett client (jackett.js): the check on the indexer directory, the
    category and query string of a search, and the normaliser that turns every
    `<item>` of a Torznab response into a flat record. The HTTP requests and
    the XML parser are not modelled: a reply is given as the element tree
    xml-js would have built from its body. */
module Torznab {
  import opened JsValues

  /** A node of the tree xml-js builds: node type ("element", "text",
      "cdata", ...), tag name, attributes, child nodes and text. Absent
      properties are `None`. */
  datatype Element = Element(
    kind: string,
    name: Option<string>,
    attributes: Option<map<string, string>>,
    elements: Option<seq<Element>>,
    text: Option<string>)

  /** A property value of a normalised record. */
  datatype Value = Str(s: string) | Num(n: Number)

  /** A normalised record is a plain JavaScript object: properties by name. */
  type Record = map<string, Value>

  /** The working map of one item (`tempObj`); a value is undefined when the
      first node inside a plain child has no `text` (a CDATA section, say). */
  type Fields = map<string, Option<string>>

  /** The helpers.js functions the normaliser and the search call; their code
      is not part of this model, so they are parameters. `dateMillis` stands for
      `new Date(s).getTime()`. */
  datatype Helpers = Helpers(
    extraTag: (Option<string>, string) -> string,
    episodeTag: (string, string) -> string,
    dateMillis: string -> Number)

  /** What the add-on asks Jackett for. */
  datatype Query = Query(
    name: string,
    year: Option<int>,
    kind: Option<string>,
    season: Option<string>,
    episode: Option<string>)

  /** The outcome of one HTTP request: an error or an empty body, or the parsed body. */
  datatype Reply = Failed | Body(doc: Element)

  /** One per-indexer search request: the indexer id and the `cat` and `q` parameters. */
  datatype SearchRequest = SearchRequest(indexerId: string, category: int, query: string)

  /** What `search` does that its caller can see, in order. `Tick` is a call of
      the ticker that helpers.js builds; its counting is not part of this model. */
  datatype Event = Partial(records: seq<Record>) | End(records: seq<Record>) | Tick

  function Attr(e: Element, key: string): Option<string>
  {
    if e.attributes.Some? && key in e.attributes.value then Some(e.attributes.value[key]) else None
  }

  /** The property key JavaScript uses for `obj[name]`. */
  function KeyOf(name: Option<string>): string
  {
    if name.Some? then name.value else "undefined"
  }

  function ChildrenOf(e: Element): seq<Element>
  {
    if e.elements.Some? then e.elements.value else []
  }

  // ---------------------------------------------------------------- indexers

  /** `getIndexers`: the children of the first element of the directory
      reply, or an error for a failed request or any other shape. */
  function IndexerList(directory: Reply): (r: Option<seq<Element>>)
    ensures r.Some? <==>
      directory.Body? && directory.doc.elements.Some? && |directory.doc.elements.value| > 0
      && directory.doc.elements.value[0].elements.Some?
    ensures r.Some? ==> r.value == ChildrenOf(directory.doc.elements.value[0])
  {
    if directory.Body? then
      var doc := directory.doc;
      if doc.elements.Some? && |doc.elements.value| > 0 && doc.elements.value[0].elements.Some?
      then Some(doc.elements.value[0].elements.value)
      else None
    else None
  }

  // -------------------------------------------------------- request parameters

  /** The Torznab category: movies (2000) for the type "movie", TV (5000) otherwise. */
  function Category(kind: Option<string>): (cat: int)
    ensures cat == 2000 || cat == 5000
    ensures cat == 2000 <==> kind == Some("movie")
  {
    if Truthy(kind) && kind.value == "movie" then 2000 else 5000
  }

  predicate HasEpisode(query: Query)
  {
    Truthy(query.season) && Truthy(query.episode)
  }

  /** The `q` parameter: the title, with the episode tag after a space when
      both season and episode are given. */
  function SearchString(query: Query, h: Helpers): (q: string)
    ensures StartsWith(q, query.name)
    ensures q == query.name <==> !HasEpisode(query)
    ensures HasEpisode(query) ==>
      q[|query.name|..] == " " + h.episodeTag(query.season.value, query.episode.value)
  {
    if HasEpisode(query) then query.name + " " + h.episodeTag(query.season.value, query.episode.value)
    else query.name
  }

  // -------------------------------------------------------------- working map

  datatype Entry = Entry(key: string, value: Option<string>)

  /** What one child of an item writes into the working map, if anything: a
      `torznab:attr` with a non-empty name and value writes that pair; any other
      child with child nodes writes the text of its first one under its tag name. */
  function EntryOf(child: Element): Option<Entry>
  {
    if child.name == Some("torznab:attr") && Truthy(Attr(child, "name")) && Truthy(Attr(child, "value")) then
      Some(Entry(Attr(child, "name").value, Attr(child, "value")))
    else if child.elements.Some? && |child.elements.value| > 0 then
      Some(Entry(KeyOf(child.name), child.elements.value[0].text))
    else None
  }

  predicate Writes(child: Element, key: string)
  {
    EntryOf(child).Some? && EntryOf(child).value.key == key
  }

  /** The working map after the children of an item, in document order. */
  function WorkingMap(children: seq<Element>): Fields
  {
    if children == [] then map[]
    else
      var before := WorkingMap(children[..|children| - 1]);
      match EntryOf(children[|children| - 1])
      case None => before
      case Some(e) => before[e.key := e.value]
  }

  /** A key is in the working map exactly when some child writes it. */
  lemma {:induction false} WorkingMapKeys(children: seq<Element>, key: string)
    ensures key in WorkingMap(children) <==> exists i :: 0 <= i < |children| && Writes(children[i], key)
  {
    if children != [] {
      var n := |children| - 1;
      var init := children[..n];
      WorkingMapKeys(init, key);
      if Writes(children[n], key) {
        assert key in WorkingMap(children);
      } else {
        assert key in WorkingMap(children) <==> key in WorkingMap(init);
        if exists i :: 0 <= i < |children| && Writes(children[i], key) {
          var i :| 0 <= i < |children| && Writes(children[i], key);
          assert i < n && init[i] == children[i];
        }
        if exists i :: 0 <= i < n && Writes(init[i], key) {
          var i :| 0 <= i < n && Writes(init[i], key);
          assert init[i] == children[i];
        }
      }
    }
  }

  /** A key holds what the last child that writes it wrote. */
  lemma {:induction false} WorkingMapLastValue(children: seq<Element>, key: string, i: int)
    requires 0 <= i < |children| && Writes(children[i], key)
    requires forall j :: i < j < |children| ==> !Writes(children[j], key)
    ensures key in WorkingMap(children) && WorkingMap(children)[key] == EntryOf(children[i]).value.value
  {
    var n := |children| - 1;
    var init := children[..n];
    if i < n {
      assert init[i] == children[i];
      forall j | i < j < n ensures !Writes(init[j], key) {
        assert init[j] == children[j];
      }
      WorkingMapLastValue(init, key, i);
    }
  }

  /** A key is in the working map exactly when some child writes it, and it
      holds what the last such child wrote. */
  lemma WorkingMapLastWriteWins(children: seq<Element>, key: string)
    ensures key in WorkingMap(children) <==> exists i :: 0 <= i < |children| && Writes(children[i], key)
    ensures forall i :: 0 <= i < |children| && Writes(children[i], key)
                        && (forall j :: i < j < |children| ==> !Writes(children[j], key))
                    ==> key in WorkingMap(children) && WorkingMap(children)[key] == EntryOf(children[i]).value.value
  {
    WorkingMapKeys(children, key);
    forall i | 0 <= i < |children| && Writes(children[i], key)
               && (forall j :: i < j < |children| ==> !Writes(children[j], key))
      ensures key in WorkingMap(children) && WorkingMap(children)[key] == EntryOf(children[i]).value.value
    {
      WorkingMapLastValue(children, key, i);
    }
  }

  // ----------------------------------------------------------- record fields

  /** The allow-lists of jackett.js: properties copied as text, properties
      passed through `parseInt`, and every property a record can have. */
  const StringKeys: seq<string> := ["title", "link", "magneturl"]
  const IntegerKeys: seq<string> := ["seeders", "peers", "size", "files"]
  const RecordKeys: set<string> :=
    {"title", "link", "magneturl", "seeders", "peers", "size", "files", "jackettDate", "from", "extraTag"}

  /** The working-map keys a record depends on. */
  const ConsultedKeys: seq<string> := StringKeys + IntegerKeys + ["pubDate"]

  /** `tempObj[key]` is truthy. */
  predicate IsSet(fields: Fields, key: string)
  {
    key in fields && Truthy(fields[key])
  }

  datatype Coercion = AsString | AsInteger

  function Coerce(c: Coercion, text: string): Value
  {
    match c
    case AsString => Str(text)
    case AsInteger => Num(ParseInt(text))
  }

  /** `base` after copying, in list order, every key of `keys` that is set in
      the working map, coerced. */
  function Copied(fields: Fields, keys: seq<string>, c: Coercion, base: Record): Record
  {
    if keys == [] then base
    else
      var before := Copied(fields, keys[..|keys| - 1], c, base);
      var key := keys[|keys| - 1];
      if IsSet(fields, key) then before[key := Coerce(c, fields[key].value)] else before
  }

  lemma {:induction false} CopiedAt(fields: Fields, keys: seq<string>, c: Coercion, base: Record, key: string)
    ensures key in Copied(fields, keys, c, base) <==> (key in keys && IsSet(fields, key)) || key in base
    ensures key in keys && IsSet(fields, key) ==> Copied(fields, keys, c, base)[key] == Coerce(c, fields[key].value)
    ensures key !in keys && key in base ==> Copied(fields, keys, c, base)[key] == base[key]
  {
    if keys != [] {
      var init := keys[..|keys| - 1];
      assert keys == init + [keys[|keys| - 1]];
      CopiedAt(fields, init, c, base, key);
    }
  }

  /** Copying reads the working map only at the copied keys. */
  lemma {:induction false} CopiedReadsOnlyKeys(f1: Fields, f2: Fields, keys: seq<string>, c: Coercion, base: Record)
    requires forall i :: 0 <= i < |keys| ==>
      (IsSet(f1, keys[i]) <==> IsSet(f2, keys[i])) && (IsSet(f1, keys[i]) ==> f1[keys[i]] == f2[keys[i]])
    ensures Copied(f1, keys, c, base) == Copied(f2, keys, c, base)
  {
    if keys != [] {
      CopiedReadsOnlyKeys(f1, f2, keys[..|keys| - 1], c, base);
    }
  }

  function TitleOf(rec: Record): Option<string>
  {
    if "title" in rec && rec["title"].Str? then Some(rec["title"].s) else None
  }

  /** The working map copied through both allow-lists (`newObj` after the two loops). */
  function Copies(fields: Fields): Record
  {
    Copied(fields, IntegerKeys, AsInteger, Copied(fields, StringKeys, AsString, map[]))
  }

  lemma CopiesAt(fields: Fields, key: string)
    ensures key in Copies(fields) ==> key in StringKeys || key in IntegerKeys
    ensures key in StringKeys ==>
      (key in Copies(fields) <==> IsSet(fields, key)) && (IsSet(fields, key) ==> Copies(fields)[key] == Str(fields[key].value))
    ensures key in IntegerKeys ==>
      (key in Copies(fields) <==> IsSet(fields, key)) && (IsSet(fields, key) ==> Copies(fields)[key] == Num(ParseInt(fields[key].value)))
  {
    var strings := Copied(fields, StringKeys, AsString, map[]);
    CopiedAt(fields, StringKeys, AsString, map[], key);
    CopiedAt(fields, IntegerKeys, AsInteger, strings, key);
    assert key in StringKeys ==> key !in IntegerKeys;
  }

  /** The record built from one item's working map: the string and integer
      allow-lists, `jackettDate`, the indexer id as `from` and the match tag. */
  function ItemRecord(fields: Fields, id: string, queryName: string, h: Helpers): Record
  {
    var numbers := Copies(fields);
    var dated := if IsSet(fields, "pubDate") then numbers["jackettDate" := Num(h.dateMillis(fields["pubDate"].value))] else numbers;
    var stamped := dated["from" := Str(id)];
    stamped["extraTag" := Str(h.extraTag(TitleOf(stamped), queryName))]
  }

  /** What a record holds: each string field exactly when its working-map
      value is non-empty, unchanged; each integer field exactly when its value
      is non-empty, as `parseInt` of it (possibly NaN); the indexer id; and no
      property outside the allow-lists. */
  lemma ItemRecordFields(fields: Fields, id: string, queryName: string, h: Helpers)
    ensures var rec := ItemRecord(fields, id, queryName, h);
      && rec.Keys <= RecordKeys
      && (forall key :: key in StringKeys ==>
            (key in rec <==> IsSet(fields, key)) && (IsSet(fields, key) ==> rec[key] == Str(fields[key].value)))
      && (forall key :: key in IntegerKeys ==>
            (key in rec <==> IsSet(fields, key)) && (IsSet(fields, key) ==> rec[key] == Num(ParseInt(fields[key].value))))
      && ("jackettDate" in rec <==> IsSet(fields, "pubDate"))
      && (IsSet(fields, "pubDate") ==> rec["jackettDate"] == Num(h.dateMillis(fields["pubDate"].value)))
      && "from" in rec && rec["from"] == Str(id)
      && "extraTag" in rec
      && rec["extraTag"] == Str(h.extraTag(if IsSet(fields, "title") then Some(fields["title"].value) else None, queryName))
  {
    var numbers := Copies(fields);
    var rec := ItemRecord(fields, id, queryName, h);
    CopiesAt(fields, "jackettDate");
    CopiesAt(fields, "title");
    forall key
      ensures key in rec ==> key in RecordKeys
      ensures key in StringKeys ==>
        (key in rec <==> IsSet(fields, key)) && (IsSet(fields, key) ==> rec[key] == Str(fields[key].value))
      ensures key in IntegerKeys ==>
        (key in rec <==> IsSet(fields, key)) && (IsSet(fields, key) ==> rec[key] == Num(ParseInt(fields[key].value)))
    {
      CopiesAt(fields, key);
      if key in StringKeys || key in IntegerKeys {
        assert key != "jackettDate" && key != "from" && key != "extraTag";
      }
    }
  }

  /** No working-map key outside the allow-lists and `pubDate` reaches a record. */
  lemma ItemRecordReadsOnlyAllowList(f1: Fields, f2: Fields, id: string, queryName: string, h: Helpers)
    requires forall key :: key in ConsultedKeys ==>
      (IsSet(f1, key) <==> IsSet(f2, key)) && (IsSet(f1, key) ==> f1[key] == f2[key])
    ensures ItemRecord(f1, id, queryName, h) == ItemRecord(f2, id, queryName, h)
  {
    assert forall i :: 0 <= i < |StringKeys| ==> StringKeys[i] in ConsultedKeys;
    assert forall i :: 0 <= i < |IntegerKeys| ==> IntegerKeys[i] in ConsultedKeys;
    assert "pubDate" in ConsultedKeys;
    CopiedReadsOnlyKeys(f1, f2, StringKeys, AsString, map[]);
    var strings := Copied(f1, StringKeys, AsString, map[]);
    CopiedReadsOnlyKeys(f1, f2, IntegerKeys, AsInteger, strings);
    assert Copies(f1) == Copies(f2);
  }

  /** The first loop of the item body: fills the working map from the
      item's children in document order. */
  method CollectFields(children: seq<Element>) returns (fields: Fields)
    ensures fields == WorkingMap(children)
  {
    fields := map[];
    var i := 0;
    while i < |children|
      invariant 0 <= i <= |children|
      invariant fields == WorkingMap(children[..i])
    {
      var child := children[i];
      if child.name == Some("torznab:attr") && Truthy(Attr(child, "name")) && Truthy(Attr(child, "value")) {
        fields := fields[Attr(child, "name").value := Attr(child, "value")];
      } else if child.elements.Some? && |child.elements.value| > 0 {
        fields := fields[KeyOf(child.name) := child.elements.value[0].text];
      }
      assert children[..i + 1][..i] == children[..i];
      i := i + 1;
    }
    assert children[..i] == children;
  }

  /** An allow-list loop of the item body: copies every listed key that is
      set in the working map into `base`, coerced. */
  method CopyFields(fields: Fields, keys: seq<string>, c: Coercion, base: Record) returns (rec: Record)
    ensures rec == Copied(fields, keys, c, base)
  {
    rec := base;
    var k := 0;
    while k < |keys|
      invariant 0 <= k <= |keys|
      invariant rec == Copied(fields, keys[..k], c, base)
    {
      var key := keys[k];
      if key in fields && Truthy(fields[key]) {
        rec := rec[key := Coerce(c, fields[key].value)];
      }
      assert keys[..k + 1][..k] == keys[..k];
      k := k + 1;
    }
    assert keys[..k] == keys;
  }

  /** Normalises one item from its children, as the body of the item loop does. */
  method NormaliseItem(children: seq<Element>, id: string, queryName: string, h: Helpers) returns (rec: Record)
    ensures rec == ItemRecord(WorkingMap(children), id, queryName, h)
  {
    var fields := CollectFields(children);
    rec := CopyFields(fields, StringKeys, AsString, map[]);
    rec := CopyFields(fields, IntegerKeys, AsInteger, rec);
    if IsSet(fields, "pubDate") {
      rec := rec["jackettDate" := Num(h.dateMillis(fields["pubDate"].value))];
    }
    rec := rec["from" := Str(id)];
    rec := rec["extraTag" := Str(h.extraTag(TitleOf(rec), queryName))];
  }

  // ------------------------------------------------------------------- items

  predicate IsItem(e: Element)
  {
    e.kind == "element" && e.name == Some("item") && e.elements.Some?
  }

  /** The item children of a channel, in document order. */
  function Items(children: seq<Element>): seq<Element>
  {
    if children == [] then []
    else Items(children[..|children| - 1]) + (if IsItem(children[|children| - 1]) then [children[|children| - 1]] else [])
  }

  /** Items are picked out of each part of a channel separately and kept in
      document order; nothing but item elements is picked. */
  lemma {:induction false} ItemsOfConcat(a: seq<Element>, b: seq<Element>)
    ensures Items(a + b) == Items(a) + Items(b)
  {
    if b != [] {
      var n := |b| - 1;
      assert (a + b)[..|a + b| - 1] == a + b[..n];
      ItemsOfConcat(a, b[..n]);
    } else {
      assert a + b == a;
    }
  }

  lemma {:induction false} ItemsAreItems(children: seq<Element>)
    ensures |Items(children)| <= |children|
    ensures forall j :: 0 <= j < |Items(children)| ==> IsItem(Items(children)[j]) && Items(children)[j] in children
    ensures forall e :: e in children && IsItem(e) ==> e in Items(children)
  {
    if children != [] {
      var init := children[..|children| - 1];
      ItemsAreItems(init);
      assert children == init + [children[|children| - 1]];
    }
  }

  function RecordOf(item: Element, id: string, queryName: string, h: Helpers): Record
  {
    ItemRecord(WorkingMap(ChildrenOf(item)), id, queryName, h)
  }

  /** The records of a channel: one per item child, in document order. */
  function Normalised(children: seq<Element>, id: string, queryName: string, h: Helpers): seq<Record>
  {
    if children == [] then []
    else
      var last := children[|children| - 1];
      Normalised(children[..|children| - 1], id, queryName, h)
      + (if IsItem(last) then [RecordOf(last, id, queryName, h)] else [])
  }

  lemma {:induction false} NormalisedOnePerItem(children: seq<Element>, id: string, queryName: string, h: Helpers)
    ensures |Normalised(children, id, queryName, h)| == |Items(children)|
    ensures forall j :: 0 <= j < |Items(children)| ==>
      Normalised(children, id, queryName, h)[j] == RecordOf(Items(children)[j], id, queryName, h)
  {
    if children != [] {
      NormalisedOnePerItem(children[..|children| - 1], id, queryName, h);
    }
  }

  /** Every record of a channel is stamped with the indexer id and has only
      allow-listed properties. */
  lemma NormalisedStamped(children: seq<Element>, id: string, queryName: string, h: Helpers)
    ensures forall j :: 0 <= j < |Normalised(children, id, queryName, h)| ==>
      var rec := Normalised(children, id, queryName, h)[j];
      rec.Keys <= RecordKeys && "from" in rec && rec["from"] == Str(id)
  {
    NormalisedOnePerItem(children, id, queryName, h);
    forall j | 0 <= j < |Items(children)| {
      ItemRecordFields(WorkingMap(ChildrenOf(Items(children)[j])), id, queryName, h);
    }
  }

  /** The item loop over a channel's children (`tempResults`). */
  method NormaliseItems(children: seq<Element>, id: string, queryName: string, h: Helpers) returns (records: seq<Record>)
    ensures records == Normalised(children, id, queryName, h)
  {
    records := [];
    var i := 0;
    while i < |children|
      invariant 0 <= i <= |children|
      invariant records == Normalised(children[..i], id, queryName, h)
    {
      var elem := children[i];
      assert children[..i + 1][..i] == children[..i];
      if elem.kind == "element" && elem.name == Some("item") && elem.elements.Some? {
        var rec := NormaliseItem(elem.elements.value, id, queryName, h);
        records := records + [rec];
      }
      i := i + 1;
    }
    assert children[..i] == children;
  }

  // ------------------------------------------------------------------ search

  /** `tors.elements[0].elements[0].elements`: the children of the channel,
      when the reply has that shape. */
  function ChannelChildren(doc: Element): Option<seq<Element>>
  {
    if doc.elements.Some? && |doc.elements.value| > 0
       && doc.elements.value[0].elements.Some? && |doc.elements.value[0].elements.value| > 0
       && doc.elements.value[0].elements.value[0].elements.Some?
    then Some(doc.elements.value[0].elements.value[0].elements.value)
    else None
  }

  function IndexerId(indexer: Element): Option<string>
  {
    Attr(indexer, "id")
  }

  /** The records one indexer contributes, or `None` when it is not asked
      (no id) or its reply is an error or has another shape. */
  function Batch(indexer: Element, query: Query, h: Helpers, fetch: SearchRequest -> Reply): Option<seq<Record>>
  {
    var id := IndexerId(indexer);
    if !Truthy(id) then None
    else
      var reply := fetch(SearchRequest(id.value, Category(query.kind), SearchString(query, h)));
      if reply.Failed? || ChannelChildren(reply.doc).None? then None
      else Some(Normalised(ChannelChildren(reply.doc).value, id.value, query.name, h))
  }

  /** The request made for each indexer that has an id, in list order. */
  function Requests(indexers: seq<Element>, query: Query, h: Helpers): seq<SearchRequest>
  {
    if indexers == [] then []
    else
      var id := IndexerId(indexers[|indexers| - 1]);
      Requests(indexers[..|indexers| - 1], query, h)
      + (if Truthy(id) then [SearchRequest(id.value, Category(query.kind), SearchString(query, h))] else [])
  }

  /** The callbacks for one indexer: its records, if any, then one tick. */
  function IndexerEvents(indexer: Element, query: Query, h: Helpers, fetch: SearchRequest -> Reply): seq<Event>
  {
    if !Truthy(IndexerId(indexer)) then []
    else
      match Batch(indexer, query, h, fetch)
      case None => [Tick]
      case Some(records) => [Partial(records), Tick]
  }

  function Events(indexers: seq<Element>, query: Query, h: Helpers, fetch: SearchRequest -> Reply): seq<Event>
  {
    if indexers == [] then []
    else Events(indexers[..|indexers| - 1], query, h, fetch) + IndexerEvents(indexers[|indexers| - 1], query, h, fetch)
  }

  /** The records delivered to the partial callback, concatenated. */
  function Delivered(events: seq<Event>): seq<Record>
  {
    if events == [] then []
    else Delivered(events[..|events| - 1]) + (if events[|events| - 1].Partial? then events[|events| - 1].records else [])
  }

  function Ticks(events: seq<Event>): nat
  {
    if events == [] then 0 else Ticks(events[..|events| - 1]) + (if events[|events| - 1].Tick? then 1 else 0)
  }

  lemma {:induction false} DeliveredConcat(a: seq<Event>, b: seq<Event>)
    ensures Delivered(a + b) == Delivered(a) + Delivered(b)
    ensures Ticks(a + b) == Ticks(a) + Ticks(b)
  {
    if b != [] {
      assert (a + b)[..|a + b| - 1] == a + b[..|b| - 1];
      DeliveredConcat(a, b[..|b| - 1]);
    } else {
      assert a + b == a;
    }
  }

  /** What the callbacks of one indexer deliver and how often they tick. */
  lemma IndexerEventsCount(indexer: Element, query: Query, h: Helpers, fetch: SearchRequest -> Reply)
    ensures Delivered(IndexerEvents(indexer, query, h, fetch))
      == (if Batch(indexer, query, h, fetch).Some? then Batch(indexer, query, h, fetch).value else [])
    ensures Ticks(IndexerEvents(indexer, query, h, fetch)) == (if Truthy(IndexerId(indexer)) then 1 else 0)
  {
    var events := IndexerEvents(indexer, query, h, fetch);
    var batch := Batch(indexer, query, h, fetch);
    if !Truthy(IndexerId(indexer)) {
      assert events == [];
    } else if batch.None? {
      assert events == [Tick] && events[..0] == [];
    } else {
      assert events == [Partial(batch.value), Tick];
      assert events[..1] == [Partial(batch.value)] && events[..1][..0] == [];
      assert Delivered(events[..1]) == batch.value && Ticks(events[..1]) == 0;
    }
  }

  /** Every request carries the category and query string of the search, and
      the ticker is called once per request, whether the indexer answered or not. */
  lemma {:induction false} RequestsAndTicks(indexers: seq<Element>, query: Query, h: Helpers, fetch: SearchRequest -> Reply)
    ensures |Requests(indexers, query, h)| <= |indexers|
    ensures forall r :: r in Requests(indexers, query, h) ==>
      r.category == Category(query.kind) && r.query == SearchString(query, h)
    ensures Ticks(Events(indexers, query, h, fetch)) == |Requests(indexers, query, h)|
  {
    if indexers != [] {
      var init := indexers[..|indexers| - 1];
      RequestsAndTicks(init, query, h, fetch);
      var last := IndexerEvents(indexers[|indexers| - 1], query, h, fetch);
      DeliveredConcat(Events(init, query, h, fetch), last);
      IndexerEventsCount(indexers[|indexers| - 1], query, h, fetch);
    }
  }

  /** `id` is the truthy id of one of the indexers. */
  predicate IdOfIndexer(indexers: seq<Element>, id: string)
  {
    exists k :: 0 <= k < |indexers| && Truthy(IndexerId(indexers[k])) && id == IndexerId(indexers[k]).value
  }

  /** Each request goes to one of the indexers, under that indexer's id. */
  lemma {:induction false} RequestsFromIndexers(indexers: seq<Element>, query: Query, h: Helpers)
    ensures forall j :: 0 <= j < |Requests(indexers, query, h)| ==> IdOfIndexer(indexers, Requests(indexers, query, h)[j].indexerId)
  {
    if indexers == [] {
      assert Requests(indexers, query, h) == [];
    } else {
      var n := |indexers| - 1;
      var init := indexers[..n];
      var id := IndexerId(indexers[n]);
      var ri := Requests(init, query, h);
      var rs := Requests(indexers, query, h);
      assert rs == ri + (if Truthy(id) then [SearchRequest(id.value, Category(query.kind), SearchString(query, h))] else []);
      RequestsFromIndexers(init, query, h);
      forall j | 0 <= j < |rs|
        ensures IdOfIndexer(indexers, rs[j].indexerId)
      {
        if j < |ri| {
          assert IdOfIndexer(init, ri[j].indexerId);
          var k :| 0 <= k < |init| && Truthy(IndexerId(init[k])) && ri[j].indexerId == IndexerId(init[k]).value;
          assert init[k] == indexers[k] && rs[j] == ri[j];
        } else {
          assert Truthy(id) && rs[j].indexerId == IndexerId(indexers[n]).value;
        }
      }
    }
  }

  /** Every indexer with an id is sent the search, with the category and the
      query string. */
  lemma {:induction false} RequestsCoverIndexers(indexers: seq<Element>, query: Query, h: Helpers)
    ensures forall k :: 0 <= k < |indexers| && Truthy(IndexerId(indexers[k])) ==>
      SearchRequest(IndexerId(indexers[k]).value, Category(query.kind), SearchString(query, h)) in Requests(indexers, query, h)
  {
    if indexers != [] {
      var n := |indexers| - 1;
      var init := indexers[..n];
      var id := IndexerId(indexers[n]);
      var ri := Requests(init, query, h);
      var rs := Requests(indexers, query, h);
      assert rs == ri + (if Truthy(id) then [SearchRequest(id.value, Category(query.kind), SearchString(query, h))] else []);
      RequestsCoverIndexers(init, query, h);
      forall k | 0 <= k < |indexers| && Truthy(IndexerId(indexers[k]))
        ensures SearchRequest(IndexerId(indexers[k]).value, Category(query.kind), SearchString(query, h)) in rs
      {
        if k < n {
          assert init[k] == indexers[k];
        } else {
          assert rs[|rs| - 1] == SearchRequest(id.value, Category(query.kind), SearchString(query, h));
        }
      }
    }
  }

  /** Every record delivered to the partial callback was stamped with the id
      of the indexer that returned it. */
  lemma {:induction false} DeliveredStamped(indexers: seq<Element>, query: Query, h: Helpers, fetch: SearchRequest -> Reply)
    ensures forall rec :: rec in Delivered(Events(indexers, query, h, fetch)) ==>
      rec.Keys <= RecordKeys && "from" in rec
      && exists k :: 0 <= k < |indexers| && Truthy(IndexerId(indexers[k])) && rec["from"] == Str(IndexerId(indexers[k]).value)
  {
    if indexers != [] {
      var n := |indexers| - 1;
      var init := indexers[..n];
      DeliveredStamped(init, query, h, fetch);
      var last := IndexerEvents(indexers[n], query, h, fetch);
      DeliveredConcat(Events(init, query, h, fetch), last);
      var batch := Batch(indexers[n], query, h, fetch);
      IndexerEventsCount(indexers[n], query, h, fetch);
      if batch.Some? {
        var reply := fetch(SearchRequest(IndexerId(indexers[n]).value, Category(query.kind), SearchString(query, h)));
        NormalisedStamped(ChannelChildren(reply.doc).value, IndexerId(indexers[n]).value, query.name, h);
      }
      forall rec | rec in Delivered(Events(init, query, h, fetch))
        ensures exists k :: 0 <= k < |indexers| && Truthy(IndexerId(indexers[k])) && rec["from"] == Str(IndexerId(indexers[k]).value)
      {
        var k :| 0 <= k < |init| && Truthy(IndexerId(init[k])) && rec["from"] == Str(IndexerId(init[k]).value);
        assert init[k] == indexers[k];
      }
    }
  }

  /** The work `search` does for one indexer: the request, if the indexer has
      an id, and the callbacks that follow its reply. */
  method AskIndexer(indexer: Element, query: Query, h: Helpers, fetch: SearchRequest -> Reply, cat: int, q: string)
    returns (asked: seq<SearchRequest>, events: seq<Event>)
    requires cat == Category(query.kind) && q == SearchString(query, h)
    ensures asked == Requests([indexer], query, h)
    ensures events == IndexerEvents(indexer, query, h, fetch)
  {
    assert [indexer][..0] == [];
    asked, events := [], [];
    var id := Attr(indexer, "id");
    if Truthy(id) {
      var request := SearchRequest(id.value, cat, q);
      asked := [request];
      var reply := fetch(request);
      if reply.Body? && ChannelChildren(reply.doc).Some? {
        var batch := NormaliseItems(ChannelChildren(reply.doc).value, id.value, query.name, h);
        events := [Partial(batch)];
      }
      events := events + [Tick];
    }
  }

  /** `search`: asks every indexer that has an id, delivers each usable reply's
      records to the partial callback as they come (here in list order) and
      accumulates them; with no usable indexer list, calls the partial and the
      end callback once each with no records and asks nothing. */
  method Search(directory: Reply, query: Query, h: Helpers, fetch: SearchRequest -> Reply)
    returns (requests: seq<SearchRequest>, events: seq<Event>, results: seq<Record>)
    ensures IndexerList(directory).None? || IndexerList(directory).value == [] ==>
      requests == [] && events == [Partial([]), End([])] && results == []
    ensures IndexerList(directory).Some? && IndexerList(directory).value != [] ==>
      requests == Requests(IndexerList(directory).value, query, h)
      && events == Events(IndexerList(directory).value, query, h, fetch)
    ensures results == Delivered(events)
  {
    var list := IndexerList(directory);
    if list.None? || |list.value| == 0 {
      requests, events, results := [], [Partial([]), End([])], [];
      assert events[..1] == [Partial([])] && events[..1][..0] == [];
      return;
    }
    requests, events, results := AskAll(list.value, query, h, fetch);
  }

  /** The `forEach` over the indexer list: each indexer in turn, its records
      accumulated after its partial callback. */
  method AskAll(indexers: seq<Element>, query: Query, h: Helpers, fetch: SearchRequest -> Reply)
    returns (requests: seq<SearchRequest>, events: seq<Event>, results: seq<Record>)
    ensures requests == Requests(indexers, query, h)
    ensures events == Events(indexers, query, h, fetch)
    ensures results == Delivered(events)
  {
    var cat := Category(query.kind);
    var q := SearchString(query, h);
    requests, events, results := [], [], [];
    var i := 0;
    while i < |indexers|
      invariant 0 <= i <= |indexers|
      invariant requests == Requests(indexers[..i], query, h)
      invariant events == Events(indexers[..i], query, h, fetch)
      invariant results == Delivered(events)
    {
      assert indexers[..i + 1][..i] == indexers[..i];
      var asked, answer := AskIndexer(indexers[i], query, h, fetch, cat, q);
      DeliveredConcat(events, answer);
      requests, events, results := requests + asked, events + answer, results + Delivered(answer);
      i := i + 1;
    }
    assert indexers[..i] == indexers;
  }
}
