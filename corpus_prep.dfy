/** Preparation of the grouped Latin corpus from per-work TEI documents
    (latin_authors_corpus_prep.py): the recursive text walk over a parsed
    document, the selection of the body inside the `TEI.2` envelope, and the
    loop that groups the texts of all works by author. */
module CorpusPrep {
  import opened Python
  import opened Json

  /** The recognised TEI tags, in the order their texts are concatenated. */
  const Tags: seq<string> := ["#text", "p", "q", "quote", "cit", "sp", "l", "div1", "div2", "div3"]

  /** The message of the TypeError raised on a value that is neither
      `None`, a string, a list nor a dictionary. */
  function UnsupportedMessage(item: Value): string {
    "This item is a " + TypeName(item) + ". The function find_text takes either a str, a list, or a dict."
  }

  /** Every leaf contributes its text and one space, so a non-empty
      extraction always ends with a space. */
  predicate EmptyOrSpaced(s: string) {
    s == [] || s[|s| - 1] == ' '
  }

  // ---------------------------------------------------------------------------
  // recursive_find_text
  // ---------------------------------------------------------------------------

  /** The text of `item`: `None` gives nothing, a string gives itself and a
      space, a list the texts of its items in order, a dictionary the texts
      under the recognised tags in the order of `Tags`; any other value raises
      TypeError naming its type. */
  function FindTextRec(item: Value): (r: Result<string>)
    decreases item, 1
    ensures r.Ok? ==> EmptyOrSpaced(r.value)
    ensures r.Raise? ==> r.error.TypeError?
  {
    match item
    case Null => Ok("")
    case Str(s) => Ok(s + " ")
    case List(xs) => FindTextItems(xs)
    case Dict(_) => FindTextTags(item, Tags)
    case _ => Raise(TypeError(UnsupportedMessage(item)))
  }

  /** The loop over the items of a list: their texts concatenated in order;
      the first item that raises stops the loop. */
  function FindTextItems(xs: seq<Value>): (r: Result<string>)
    decreases xs, 0
    ensures r.Ok? ==> EmptyOrSpaced(r.value)
    ensures r.Raise? ==> r.error.TypeError?
  {
    if xs == [] then Ok("")
    else
      var head :- FindTextRec(xs[0]);
      var rest :- FindTextItems(xs[1..]);
      Ok(head + rest)
  }

  /** The loop over the tags of a dictionary: for each tag of `tags` present
      in `d`, in order, the text of its value. */
  function FindTextTags(d: Value, tags: seq<string>): (r: Result<string>)
    requires d.Dict?
    decreases d, 0, |tags|
    ensures r.Ok? ==> EmptyOrSpaced(r.value)
    ensures r.Raise? ==> r.error.TypeError?
  {
    if tags == [] then Ok("")
    else
      var head :- if tags[0] in d.fields then FindTextRec(d.fields[tags[0]]) else Ok("");
      var rest :- FindTextTags(d, tags[1..]);
      Ok(head + rest)
  }

  /** The leaves: `None` gives the empty text, a string gives itself followed
      by one space, and a number or a boolean raises TypeError naming its
      type: `int`, or `long` beyond the machine range, `float` or `bool`. */
  lemma FindTextLeaves(item: Value)
    ensures item.Null? ==> FindTextRec(item) == Ok("")
    ensures item.Str? ==> FindTextRec(item) == Ok(item.s + " ")
    ensures item.Int? ==> FindTextRec(item) == Raise(TypeError(UnsupportedMessage(item)))
    ensures item.Float? ==> FindTextRec(item) == Raise(TypeError(UnsupportedMessage(item)))
    ensures item.Bool? ==> FindTextRec(item) == Raise(TypeError(UnsupportedMessage(item)))
  {
  }

  /** `item` holds nothing but `None`, strings, lists and dictionaries along
      every path the walk follows: list items and values under recognised
      tags. What sits under any other key is never looked at. */
  predicate Walkable(item: Value)
    decreases item
  {
    match item
    case Null => true
    case Str(_) => true
    case List(xs) => forall i | 0 <= i < |xs| :: Walkable(xs[i])
    case Dict(m) => forall i | 0 <= i < |Tags| :: Tags[i] in m ==> Walkable(m[Tags[i]])
    case _ => false
  }

  /** The walk succeeds exactly on walkable values. */
  lemma {:induction false} FindTextOkIffWalkable(item: Value)
    decreases item, 1
    ensures FindTextRec(item).Ok? <==> Walkable(item)
  {
    match item
    case List(xs) => FindTextItemsOkIffWalkable(xs);
    case Dict(m) => FindTextTagsOkIffWalkable(item, Tags);
    case _ =>
  }

  /** The loop over a list succeeds exactly when every item is walkable. */
  lemma {:induction false} FindTextItemsOkIffWalkable(xs: seq<Value>)
    decreases xs, 0
    ensures FindTextItems(xs).Ok? <==> forall i | 0 <= i < |xs| :: Walkable(xs[i])
  {
    if xs != [] {
      FindTextOkIffWalkable(xs[0]);
      FindTextItemsOkIffWalkable(xs[1..]);
      assert forall i | 1 <= i < |xs| :: xs[i] == xs[1..][i - 1];
    }
  }

  /** The loop over the tags succeeds exactly when every value under one
      of them is walkable. */
  lemma {:induction false} FindTextTagsOkIffWalkable(d: Value, tags: seq<string>)
    requires d.Dict?
    decreases d, 0, |tags|
    ensures FindTextTags(d, tags).Ok? <==> forall i | 0 <= i < |tags| :: tags[i] in d.fields ==> Walkable(d.fields[tags[i]])
  {
    if tags != [] {
      if tags[0] in d.fields {
        FindTextOkIffWalkable(d.fields[tags[0]]);
      }
      FindTextTagsOkIffWalkable(d, tags[1..]);
      assert forall i | 1 <= i < |tags| :: tags[i] == tags[1..][i - 1];
    }
  }

  /** Two extractions one after the other: their texts joined, or the
      exception of the first one that raised. */
  function Concat(a: Result<string>, b: Result<string>): Result<string> {
    if a.Raise? then a else if b.Raise? then b else Ok(a.value + b.value)
  }

  /** Extraction distributes over list concatenation: the text of `xs + ys`
      is the text of `xs` followed by the text of `ys`, and an error in `xs`
      comes before anything in `ys` is looked at. */
  lemma FindTextListAppend(xs: seq<Value>, ys: seq<Value>)
    ensures FindTextRec(List(xs + ys)) == Concat(FindTextRec(List(xs)), FindTextRec(List(ys)))
  {
    assert FindTextRec(List(xs + ys)) == FindTextItems(xs + ys);
    assert FindTextRec(List(xs)) == FindTextItems(xs);
    assert FindTextRec(List(ys)) == FindTextItems(ys);
    FindTextItemsAppend(xs, ys);
  }

  /** The loop over `xs + ys` is the loop over `xs` then the loop over `ys`. */
  lemma {:induction false} FindTextItemsAppend(xs: seq<Value>, ys: seq<Value>)
    ensures FindTextItems(xs + ys) == Concat(FindTextItems(xs), FindTextItems(ys))
  {
    if xs == [] {
      assert xs + ys == ys;
      var u := FindTextItems(ys);
      if u.Ok? {
        assert "" + u.value == u.value;
      }
    } else {
      assert (xs + ys)[0] == xs[0];
      assert (xs + ys)[1..] == xs[1..] + ys;
      FindTextItemsAppend(xs[1..], ys);
      var h := FindTextRec(xs[0]);
      var t := FindTextItems(xs[1..]);
      var u := FindTextItems(ys);
      if h.Ok? && t.Ok? && u.Ok? {
        assert h.value + (t.value + u.value) == (h.value + t.value) + u.value;
      }
    }
  }

  /** The walk over the tags of `tags` sees only the values stored under
      those tags: two dictionaries that agree there give the same result. */
  lemma {:induction false} FindTextTagsAgree(d: Value, e: Value, tags: seq<string>)
    requires d.Dict? && e.Dict?
    requires forall i | 0 <= i < |tags| :: (tags[i] in d.fields <==> tags[i] in e.fields)
    requires forall i | 0 <= i < |tags| :: tags[i] in d.fields ==> d.fields[tags[i]] == e.fields[tags[i]]
    ensures FindTextTags(d, tags) == FindTextTags(e, tags)
  {
    if tags != [] {
      FindTextTagsAgree(d, e, tags[1..]);
    }
  }

  /** Adding, replacing or removing the value of a key outside the
      recognised tags leaves the extraction of a dictionary unchanged, even
      when that value is one the walk would reject. */
  lemma FindTextIgnoresOtherKeys(m: map<string, Value>, k: string, v: Value)
    requires k !in Tags
    ensures FindTextRec(Dict(m[k := v])) == FindTextRec(Dict(m))
    ensures FindTextRec(Dict(m - {k})) == FindTextRec(Dict(m))
  {
    FindTextTagsAgree(Dict(m[k := v]), Dict(m), Tags);
    FindTextTagsAgree(Dict(m - {k}), Dict(m), Tags);
  }

  // ---------------------------------------------------------------------------
  // find_text
  // ---------------------------------------------------------------------------

  /** The KeyError message for a document without the `TEI.2` envelope or
      without its `text` section. */
  function EnvelopeMessage(filepath: string): string {
    "The JSON file " + filepath + " does not contain the field \"TEI.2\", "
      + "or the field \"TEI.2\" does not contain the subfield \"text\"."
  }

  /** The KeyError message for a `text` section with neither a body nor a
      group of texts. */
  function BodyMessage(filepath: string): string {
    "The JSON file " + filepath + " does not contain body text."
  }

  /** The text of the body of the document in `filepath`, already parsed
      into `doc`. Inside `TEI.2.text`, a `body` is taken first; otherwise,
      when there is a `group` with a `text`, either the body of that `text`
      or, when it has none, the bodies of its elements one after the other. */
  function FindText(filepath: string, doc: Value): (r: Result<string>)
    ensures r.Ok? ==> HasTextSection(doc) && EmptyOrSpaced(r.value)
    ensures r.Raise? ==> r.error.KeyError? || r.error.TypeError?
  {
    var hasEnvelope :- Contains(doc, "TEI.2");
    if !hasEnvelope then Raise(KeyError(EnvelopeMessage(filepath)))
    else
      var tei :- Subscript(doc, "TEI.2");
      var hasText :- Contains(tei, "text");
      if !hasText then Raise(KeyError(EnvelopeMessage(filepath)))
      else
        var text :- Subscript(tei, "text");
        var hasBody :- Contains(text, "body");
        if hasBody then
          var body :- Subscript(text, "body");
          FindTextRec(body)
        else
          var hasGroup :- Contains(text, "group");
          if !hasGroup then Raise(KeyError(BodyMessage(filepath)))
          else
            var group :- Subscript(text, "group");
            var groupHasText :- Contains(group, "text");
            if !groupHasText then Raise(KeyError(BodyMessage(filepath)))
            else
              var groupText :- Subscript(group, "text");
              var single :- Contains(groupText, "body");
              if single then
                var body :- Subscript(groupText, "body");
                FindTextRec(body)
              else FindTextGroup(groupText)
  }

  /** The loop `for text_dict in ...: text += recursive_find_text(text_dict['body'])`
      over the `text` of a group that has no `body` of its own. Iterating a
      dictionary or a string yields strings, which reject the `'body'`
      subscript, so only an empty one gets through. */
  function FindTextGroup(texts: Value): (r: Result<string>)
    ensures r.Ok? ==> EmptyOrSpaced(r.value)
    ensures r.Raise? ==> r.error.KeyError? || r.error.TypeError?
    ensures texts.Dict? ==> (r.Ok? <==> texts.fields == map[]) && (r.Ok? ==> r.value == "")
    ensures texts.Str? ==> (r.Ok? <==> texts.s == []) && (r.Ok? ==> r.value == "")
  {
    match texts
    case List(xs) => FindTextBodies(xs)
    case Dict(m) => if m == map[] then Ok("") else Raise(TypeError("string indices must be integers"))
    case Str(s) => if s == [] then Ok("") else Raise(TypeError("string indices must be integers"))
    case _ => Raise(TypeError("'" + TypeName(texts) + "' object is not iterable"))
  }

  /** The texts of the bodies of the elements of `xs`, concatenated in order. */
  function FindTextBodies(xs: seq<Value>): (r: Result<string>)
    ensures r.Ok? ==> EmptyOrSpaced(r.value)
    ensures r.Ok? ==> forall i | 0 <= i < |xs| :: xs[i].Dict? && "body" in xs[i].fields
    ensures r.Raise? ==> r.error.KeyError? || r.error.TypeError?
  {
    if xs == [] then Ok("")
    else
      var body :- Subscript(xs[0], "body");
      var head :- FindTextRec(body);
      var rest :- FindTextBodies(xs[1..]);
      Ok(head + rest)
  }

  /** The body of each element of a list of group texts. */
  function Bodies(xs: seq<Value>): (bodies: seq<Value>)
    requires forall i | 0 <= i < |xs| :: xs[i].Dict? && "body" in xs[i].fields
    ensures |bodies| == |xs|
    ensures forall i | 0 <= i < |xs| :: bodies[i] == xs[i].fields["body"]
  {
    if xs == [] then [] else [xs[0].fields["body"]] + Bodies(xs[1..])
  }

  /** A document laid out as nested dictionaries down to `TEI.2.text`. */
  predicate HasTextSection(doc: Value) {
    && doc.Dict? && "TEI.2" in doc.fields
    && doc.fields["TEI.2"].Dict? && "text" in doc.fields["TEI.2"].fields
    && doc.fields["TEI.2"].fields["text"].Dict?
  }

  /** The fields of `TEI.2.text`. */
  function TextSection(doc: Value): map<string, Value>
    requires HasTextSection(doc)
  {
    doc.fields["TEI.2"].fields["text"].fields
  }

  /** A document without `TEI.2`, or whose `TEI.2` has no `text`, raises
      KeyError naming the file. */
  lemma FindTextMissingEnvelope(filepath: string, doc: Value)
    requires doc.Dict?
    requires "TEI.2" !in doc.fields
          || (doc.fields["TEI.2"].Dict? && "text" !in doc.fields["TEI.2"].fields)
    ensures FindText(filepath, doc) == Raise(KeyError(EnvelopeMessage(filepath)))
  {
  }

  /** A `body` directly under `TEI.2.text` is extracted, whatever else the
      section holds: it takes precedence over a `group`. */
  lemma FindTextBodyFirst(filepath: string, doc: Value)
    requires HasTextSection(doc) && "body" in TextSection(doc)
    ensures FindText(filepath, doc) == FindTextRec(TextSection(doc)["body"])
  {
  }

  /** Without a direct `body`, a single group text with a `body` has that
      body extracted. */
  lemma FindTextGroupBody(filepath: string, doc: Value)
    requires HasTextSection(doc) && "body" !in TextSection(doc)
    requires "group" in TextSection(doc) && TextSection(doc)["group"].Dict?
    requires "text" in TextSection(doc)["group"].fields
    requires TextSection(doc)["group"].fields["text"].Dict?
    requires "body" in TextSection(doc)["group"].fields["text"].fields
    ensures FindText(filepath, doc) == FindTextRec(TextSection(doc)["group"].fields["text"].fields["body"])
  {
  }

  /** With a list of group texts, each a dictionary with a body, the result
      is the extraction of the list of their bodies: the bodies' texts in
      list order. */
  lemma FindTextGroupList(filepath: string, doc: Value)
    requires HasTextSection(doc) && "body" !in TextSection(doc)
    requires "group" in TextSection(doc) && TextSection(doc)["group"].Dict?
    requires "text" in TextSection(doc)["group"].fields
    requires TextSection(doc)["group"].fields["text"].List?
    requires var xs := TextSection(doc)["group"].fields["text"].items;
      forall i | 0 <= i < |xs| :: xs[i].Dict? && "body" in xs[i].fields
    ensures var xs := TextSection(doc)["group"].fields["text"].items;
      FindText(filepath, doc) == FindTextRec(List(Bodies(xs)))
  {
    var xs := TextSection(doc)["group"].fields["text"].items;
    assert forall i | 0 <= i < |xs| :: xs[i] != Str("body");
    FindTextBodiesOfDicts(xs);
  }

  /** The loop over group texts with bodies is the list walk over the bodies. */
  lemma {:induction false} FindTextBodiesOfDicts(xs: seq<Value>)
    requires forall i | 0 <= i < |xs| :: xs[i].Dict? && "body" in xs[i].fields
    ensures FindTextBodies(xs) == FindTextItems(Bodies(xs))
  {
    if xs != [] {
      FindTextBodiesOfDicts(xs[1..]);
      assert Bodies(xs)[1..] == Bodies(xs[1..]);
    }
  }

  /** A text section with neither a `body` nor a `group` holding a `text`
      raises KeyError naming the file. */
  lemma FindTextNoBody(filepath: string, doc: Value)
    requires HasTextSection(doc) && "body" !in TextSection(doc)
    requires "group" !in TextSection(doc)
          || (TextSection(doc)["group"].Dict? && "text" !in TextSection(doc)["group"].fields)
    ensures FindText(filepath, doc) == Raise(KeyError(BodyMessage(filepath)))
  {
  }

  // ---------------------------------------------------------------------------
  // The grouping loop of the main block
  // ---------------------------------------------------------------------------

  /** The path separator, `os.sep` on a POSIX system. */
  const Sep: char := '/'

  /** Python's `s.split(sep)` for a one-character separator: the pieces
      between separators, in order, empty ones included. */
  function Split(s: string, sep: char): (parts: seq<string>)
    ensures |parts| >= 1
    ensures forall i | 0 <= i < |parts| :: sep !in parts[i]
    ensures Join(parts, sep) == s
  {
    if s == [] then [""]
    else
      var rest := Split(s[1..], sep);
      if s[0] == sep then [""] + rest
      else [[s[0]] + rest[0]] + rest[1..]
  }

  /** `sep.join(parts)`, the inverse of `Split`. */
  function Join(parts: seq<string>, sep: char): string
    requires |parts| >= 1
  {
    if |parts| == 1 then parts[0] else parts[0] + [sep] + Join(parts[1..], sep)
  }

  /** Splitting a separator-free prefix, a separator and the rest gives the
      prefix followed by the pieces of the rest. */
  lemma {:induction false} SplitAfterSeparator(p: string, q: string, sep: char)
    requires sep !in p
    ensures Split(p + [sep] + q, sep) == [p] + Split(q, sep)
  {
    if p != [] {
      assert (p + [sep] + q)[1..] == p[1..] + [sep] + q;
      SplitAfterSeparator(p[1..], q, sep);
      assert [p[0]] + p[1..] == p;
    } else {
      assert (p + [sep] + q)[1..] == q;
    }
  }

  /** `filepath.split(os.sep)[1]`: the second component of the path, the
      directory named after the author; a path without a separator raises
      IndexError. */
  function AuthorOf(filepath: string): (r: Result<string>)
    ensures r.Ok? <==> Sep in filepath
    ensures r.Ok? ==> Sep !in r.value
    ensures r.Ok? ==> r.value == Split(filepath, Sep)[1]
    ensures r.Raise? ==> r.error == IndexError("list index out of range")
  {
    var parts := Split(filepath, Sep);
    if |parts| >= 2 then Ok(parts[1]) else Raise(IndexError("list index out of range"))
  }

  /** A work found under `<dir>/<author>/...` is filed under `author`. */
  lemma AuthorOfWork(dir: string, author: string, rest: string)
    requires Sep !in dir && Sep !in author
    ensures AuthorOf(dir + [Sep] + author + [Sep] + rest) == Ok(author)
  {
    assert dir + [Sep] + author + [Sep] + rest == dir + [Sep] + (author + [Sep] + rest);
    SplitAfterSeparator(dir, author + [Sep] + rest, Sep);
    SplitAfterSeparator(author, rest, Sep);
  }

  /** One pass of the loop body for the file at `filepath`: its text, which
      must not be empty, and the author it is filed under. */
  function FileEntry(filepath: string, doc: Value): (r: Result<(string, string)>)
    ensures r.Ok? ==> r.value.1 != [] && AuthorOf(filepath) == Ok(r.value.0)
    ensures r.Ok? ==> FindText(filepath, doc) == Ok(r.value.1)
    ensures FindText(filepath, doc).Raise? ==> r == Raise(FindText(filepath, doc).error)
    ensures FindText(filepath, doc) == Ok("") ==> r == Raise(ValueError("No text was found in " + filepath + "."))
    ensures FindText(filepath, doc).Ok? && FindText(filepath, doc).value != "" && AuthorOf(filepath).Raise? ==>
      r == Raise(AuthorOf(filepath).error)
  {
    var text :- FindText(filepath, doc);
    if text == "" then Raise(ValueError("No text was found in " + filepath + "."))
    else
      var author :- AuthorOf(filepath);
      Ok((author, text))
  }

  /** The (author, text) entries of the files in order, or the exception of
      the first file that raises. */
  function Entries(files: seq<(string, Value)>): (r: Result<seq<(string, string)>>)
    ensures r.Ok? ==> |r.value| == |files|
  {
    if files == [] then Ok([])
    else
      var earlier :- Entries(files[..|files| - 1]);
      var last :- FileEntry(files[|files| - 1].0, files[|files| - 1].1);
      Ok(earlier + [last])
  }

  /** One more file either stops the run with its exception or adds its
      entry at the end. */
  lemma EntriesLast(files: seq<(string, Value)>, i: nat)
    requires i < |files| && Entries(files[..i]).Ok?
    ensures FileEntry(files[i].0, files[i].1).Raise? ==>
      Entries(files[..i + 1]) == Raise(FileEntry(files[i].0, files[i].1).error)
    ensures FileEntry(files[i].0, files[i].1).Ok? ==>
      Entries(files[..i + 1]) == Ok(Entries(files[..i]).value + [FileEntry(files[i].0, files[i].1).value])
  {
    assert files[..i + 1][..i] == files[..i];
  }

  /** A run succeeds exactly when every file gives an entry, and then entry
      `i` is the one of file `i`. */
  lemma EntriesAt(files: seq<(string, Value)>)
    ensures Entries(files).Ok? <==> forall i | 0 <= i < |files| :: FileEntry(files[i].0, files[i].1).Ok?
    ensures Entries(files).Ok? ==>
      forall i | 0 <= i < |files| :: FileEntry(files[i].0, files[i].1) == Ok(Entries(files).value[i])
  {
    var f := (file: (string, Value)) => FileEntry(file.0, file.1);
    EntriesCollect(files, f);
    CollectAt(f, files);
  }

  /** The loop over the files, for any loop body `f`: the results of `f` on
      the files in order, or the exception of the first file that raises. */
  function Collect<X, Y>(f: X -> Result<Y>, xs: seq<X>): (r: Result<seq<Y>>)
    ensures r.Ok? ==> |r.value| == |xs|
  {
    if xs == [] then Ok([])
    else
      var earlier :- Collect(f, xs[..|xs| - 1]);
      var last :- f(xs[|xs| - 1]);
      Ok(earlier + [last])
  }

  /** `Entries` is the loop with `FileEntry` as its body. */
  lemma {:induction false} EntriesCollect(files: seq<(string, Value)>, f: ((string, Value)) -> Result<(string, string)>)
    requires forall file :: f(file) == FileEntry(file.0, file.1)
    ensures Entries(files) == Collect(f, files)
  {
    if files != [] {
      EntriesCollect(files[..|files| - 1], f);
    }
  }

  /** The loop succeeds exactly when `f` succeeds on every element, and then
      result `i` is that of element `i`. */
  lemma {:induction false} CollectAt<X, Y>(f: X -> Result<Y>, xs: seq<X>)
    ensures Collect(f, xs).Ok? <==> forall i | 0 <= i < |xs| :: f(xs[i]).Ok?
    ensures Collect(f, xs).Ok? ==> forall i | 0 <= i < |xs| :: f(xs[i]) == Ok(Collect(f, xs).value[i])
  {
    if xs != [] {
      var init := xs[..|xs| - 1];
      CollectAt(f, init);
      assert forall i | 0 <= i < |init| :: init[i] == xs[i];
    }
  }

  /** Filing one text under its author: appended to the author's list, or a
      new list when the author is seen for the first time. */
  function File(corpus: map<string, seq<string>>, entry: (string, string)): (r: map<string, seq<string>>)
    ensures r.Keys == corpus.Keys + {entry.0}
    ensures forall a | a in corpus && a != entry.0 :: r[a] == corpus[a]
    ensures entry.0 in corpus ==> r[entry.0] == corpus[entry.0] + [entry.1]
    ensures entry.0 !in corpus ==> r[entry.0] == [entry.1]
  {
    if entry.0 in corpus then corpus[entry.0 := corpus[entry.0] + [entry.1]]
    else corpus[entry.0 := [entry.1]]
  }

  /** The corpus built by filing the entries in order. */
  function Group(entries: seq<(string, string)>): (r: map<string, seq<string>>)
    ensures forall i | 0 <= i < |entries| :: entries[i].0 in r
    ensures forall a | a in r :: r[a] != []
  {
    if entries == [] then map[]
    else File(Group(entries[..|entries| - 1]), entries[|entries| - 1])
  }

  /** Grouping one more entry files it into the grouping of the others. */
  lemma GroupLast(entries: seq<(string, string)>, entry: (string, string))
    ensures Group(entries + [entry]) == File(Group(entries), entry)
  {
    assert (entries + [entry])[..|entries|] == entries;
  }

  /** The texts filed under `author`, in the order of the entries. */
  function TextsBy(entries: seq<(string, string)>, author: string): seq<string> {
    if entries == [] then []
    else
      var last := entries[|entries| - 1];
      TextsBy(entries[..|entries| - 1], author) + (if last.0 == author then [last.1] else [])
  }

  /** The grouped corpus holds exactly the authors that occur, and under each
      author exactly that author's texts, in file order. */
  lemma {:induction false} GroupByAuthor(entries: seq<(string, string)>, author: string)
    ensures author in Group(entries) <==> exists i | 0 <= i < |entries| :: entries[i].0 == author
    ensures author in Group(entries) ==> Group(entries)[author] == TextsBy(entries, author)
    ensures author !in Group(entries) ==> TextsBy(entries, author) == []
  {
    if entries != [] {
      var init := entries[..|entries| - 1];
      GroupByAuthor(init, author);
      assert forall i | 0 <= i < |init| :: init[i] == entries[i];
    }
  }

  /** The result of the main block: the grouped corpus, or the first
      exception. */
  function Prepared(files: seq<(string, Value)>): (r: Result<map<string, seq<string>>>)
    ensures r.Ok? <==> Entries(files).Ok?
    ensures r.Raise? ==> r.error == Entries(files).error
    ensures r.Ok? ==> forall a | a in r.value :: r.value[a] != []
  {
    var entries :- Entries(files);
    Ok(Group(entries))
  }

  /** Once a prefix of the files raises, the whole run raises the same
      exception: later files are never looked at. */
  lemma {:induction false} EntriesStopAtFirstError(files: seq<(string, Value)>, i: nat)
    requires i <= |files| && Entries(files[..i]).Raise?
    ensures Entries(files) == Entries(files[..i])
    decreases |files| - i
  {
    if i < |files| {
      assert files[..i + 1][..i] == files[..i];
      EntriesStopAtFirstError(files, i + 1);
    } else {
      assert files[..i] == files;
    }
  }

  /** Every text of a prepared corpus is non-empty. (Which author each text
      is filed under is `GroupByAuthor`.) */
  lemma PreparedTextsNonEmpty(files: seq<(string, Value)>, author: string)
    requires Prepared(files).Ok? && author in Prepared(files).value
    ensures forall t | t in Prepared(files).value[author] :: t != []
  {
    var entries := Entries(files).value;
    GroupByAuthor(entries, author);
    EntriesNonEmpty(files);
    TextsByNonEmpty(entries, author);
  }

  /** Every entry of a successful run has a non-empty text. */
  lemma {:induction false} EntriesNonEmpty(files: seq<(string, Value)>)
    requires Entries(files).Ok?
    ensures forall i | 0 <= i < |files| :: Entries(files).value[i].1 != []
  {
    if files != [] {
      EntriesNonEmpty(files[..|files| - 1]);
    }
  }

  /** Selecting one author's texts keeps only texts of the entries. */
  lemma {:induction false} TextsByNonEmpty(entries: seq<(string, string)>, author: string)
    requires forall i | 0 <= i < |entries| :: entries[i].1 != []
    ensures forall t | t in TextsBy(entries, author) :: t != []
  {
    if entries != [] {
      TextsByNonEmpty(entries[..|entries| - 1], author);
    }
  }

  /** The main block's loop over the files: each text is found, rejected
      when empty (both in `FileEntry`), and appended to the list of its author, created on the
      author's first work. */
  method PrepareCorpus(files: seq<(string, Value)>) returns (r: Result<map<string, seq<string>>>)
    ensures r == Prepared(files)
  {
    var corpus: map<string, seq<string>> := map[];
    ghost var entries: seq<(string, string)> := [];
    var i := 0;
    while i < |files|
      invariant 0 <= i <= |files|
      invariant Entries(files[..i]) == Ok(entries)
      invariant corpus == Group(entries)
    {
      var (filepath, doc) := files[i];
      var entry := FileEntry(filepath, doc);
      EntriesLast(files, i);
      if entry.Raise? {
        EntriesStopAtFirstError(files, i + 1);
        return Raise(entry.error);
      }
      var (author, text) := entry.value;
      if author in corpus {
        corpus := corpus[author := corpus[author] + [text]];
      } else {
        corpus := corpus[author := [text]];
      }
      GroupLast(entries, (author, text));
      entries := entries + [(author, text)];
      i := i + 1;
    }
    assert files[..i] == files;
    return Ok(corpus);
  }
}
