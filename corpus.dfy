/** Labelled documents and the Latin authors corpus (corpus.py): a document
    and its abbreviation, the corpus as a mutable container of documents, and
    `LatinAuthorsCorpus.load`, which keeps the authors with at least five
    works, shuffles each author's documents with the generator reseeded to 3
    and splits them 50/25/25 into training, development and test folds. */
module Corpus {
  import opened Python
  import opened Shuffle

  /** A document: its text, its label (the author) and the file it came from. */
  datatype Document = Document(data: string, docLabel: Option<string>, source: Option<string>)

  /** The length up to which `Abbrev` shows a document's text in full. */
  const MaxDisplayData: nat := 30

  /** The text of a document for display: in full when shorter than
      `MaxDisplayData`, otherwise its first `MaxDisplayData` characters and
      an ellipsis. */
  function Abbrev(d: Document): (r: string)
    ensures |r| <= MaxDisplayData + 3
    ensures |d.data| < MaxDisplayData ==> r == d.data
    ensures |d.data| >= MaxDisplayData ==>
      |r| == MaxDisplayData + 3 && r[..MaxDisplayData] == d.data[..MaxDisplayData] && r[MaxDisplayData..] == "..."
  {
    if |d.data| < MaxDisplayData then d.data else d.data[..MaxDisplayData] + "..."
  }

  /** Abbreviating an abbreviation changes nothing. */
  lemma AbbrevIdempotent(d: Document)
    ensures Abbrev(d.(data := Abbrev(d))) == Abbrev(d)
  {
    var r := Abbrev(d);
    if |d.data| >= MaxDisplayData {
      assert r[..MaxDisplayData] + "..." == r;
    }
  }

  /** Python's normalisation of a list index: a negative index counts from
      the end; anything outside `-n .. n - 1` is out of range. */
  function ListIndex(n: nat, key: int): (r: Option<nat>)
    ensures r.Some? <==> -(n as int) <= key < n
    ensures r.Some? ==> r.value < n && (r.value == key || r.value == key + n)
  {
    if 0 <= key < n then Some(key)
    else if -(n as int) <= key < 0 then Some(n + key)
    else None
  }

  /** The minimum number of works an author needs to be kept. */
  const MinWorks: nat := 5

  /** The works of one author as documents labelled with the author and the
      data file, in the order of the works. */
  function Wrap(author: string, works: seq<string>, datafile: string): (docs: seq<Document>)
    ensures |docs| == |works|
    ensures forall i | 0 <= i < |works| ::
      docs[i].data == works[i] && docs[i].docLabel == Some(author) && docs[i].source == Some(datafile)
  {
    seq(|works|, i requires 0 <= i < |works| => Document(works[i], Some(author), Some(datafile)))
  }

  /** The documents of one author after the shuffle: the wrapped works,
      rearranged. */
  function AuthorDocs(author: string, works: seq<string>, datafile: string, draws: Draws): (docs: seq<Document>)
    ensures multiset(docs) == multiset(Wrap(author, works, datafile))
  {
    ShuffledIsPermutation(Wrap(author, works, datafile), draws);
    Shuffled(Wrap(author, works, datafile), draws)
  }

  /** The four lists a load appends to. */
  datatype Part = All | Train | Dev | Test

  /** The piece of one author's shuffled documents that goes to `part`: all
      of them, or the slices `[..n/2]`, `[n/2..3n/4]` and `[3n/4..]`, where
      `n/2` and `3n/4` are `int(0.5 * n)` and `int(0.75 * n)`. */
  function Portion(docs: seq<Document>, part: Part): (r: seq<Document>)
    ensures |r| <= |docs|
    ensures forall d | d in r :: d in docs
  {
    var n := |docs|;
    match part
    case All => docs
    case Train => docs[..n / 2]
    case Dev => docs[n / 2..3 * n / 4]
    case Test => docs[3 * n / 4..]
  }

  /** The sizes of the three folds of an author with `n` works: `n/2`,
      `3n/4 - n/2` and `n - 3n/4`. They add up to `n`, and all three are
      non-empty exactly when `n >= 3`, so always for a kept author. */
  lemma FoldSizes(docs: seq<Document>)
    ensures Portion(docs, Train) + Portion(docs, Dev) + Portion(docs, Test) == Portion(docs, All)
    ensures |Portion(docs, Train)| == |docs| / 2
    ensures |Portion(docs, Dev)| == 3 * |docs| / 4 - |docs| / 2
    ensures |Portion(docs, Test)| == |docs| - 3 * |docs| / 4
    ensures (|Portion(docs, Train)| >= 1 && |Portion(docs, Dev)| >= 1 && |Portion(docs, Test)| >= 1)
      <==> |docs| >= 3
    ensures |docs| == 5 ==> |Portion(docs, Train)| == 2 && |Portion(docs, Dev)| == 1 && |Portion(docs, Test)| == 2
    ensures |docs| == 8 ==> |Portion(docs, Train)| == 4 && |Portion(docs, Dev)| == 2 && |Portion(docs, Test)| == 2
  {
    var n := |docs|;
    assert docs[..n / 2] + docs[n / 2..3 * n / 4] + docs[3 * n / 4..] == docs;
    if n == 5 {
      assert n / 2 == 2 && 3 * n / 4 == 3;
    } else if n == 8 {
      assert n / 2 == 4 && 3 * n / 4 == 6;
    }
  }

  /** What loading the `(author, works)` pairs of `datafile` appends to
      `part`: for each author with at least `MinWorks` works, in order, the
      author's portion. */
  function Loaded(datafile: string, authors: seq<(string, seq<string>)>, draws: Draws, part: Part): (docs: seq<Document>)
    ensures forall d | d in docs :: d.source == Some(datafile) && d.docLabel.Some?
  {
    if authors == [] then []
    else
      var last := authors[|authors| - 1];
      Loaded(datafile, authors[..|authors| - 1], draws, part) + Contribution(datafile, last, draws, part)
  }

  /** What one `(author, works)` pair adds to `part`: nothing below the
      threshold, the author's portion otherwise. */
  function Contribution(datafile: string, entry: (string, seq<string>), draws: Draws, part: Part): (docs: seq<Document>)
    ensures |entry.1| < MinWorks ==> docs == []
    ensures forall d | d in docs ::
      d.docLabel == Some(entry.0) && d.source == Some(datafile) && d.data in entry.1
  {
    if |entry.1| >= MinWorks then
      var shuffled := AuthorDocs(entry.0, entry.1, datafile, draws);
      var docs := Portion(shuffled, part);
      assert forall d | d in docs :: d in multiset(Wrap(entry.0, entry.1, datafile)) by {
        assert forall d | d in docs :: d in multiset(shuffled);
      }
      docs
    else []
  }

  /** Loading one more pair appends that pair's contribution. */
  lemma LoadedStep(datafile: string, authors: seq<(string, seq<string>)>, draws: Draws, a: nat, part: Part)
    requires a < |authors|
    ensures Loaded(datafile, authors[..a + 1], draws, part)
      == Loaded(datafile, authors[..a], draws, part) + Contribution(datafile, authors[a], draws, part)
  {
    assert authors[..a + 1][..a] == authors[..a];
  }

  /** The documents of the kept authors before shuffling, in input order. */
  function Kept(datafile: string, authors: seq<(string, seq<string>)>): seq<Document> {
    if authors == [] then []
    else
      var last := authors[|authors| - 1];
      Kept(datafile, authors[..|authors| - 1])
        + if |last.1| >= MinWorks then Wrap(last.0, last.1, datafile) else []
  }

  /** The three folds of a load are the loaded documents split without loss
      or overlap. */
  lemma {:induction false} LoadedPartition(datafile: string, authors: seq<(string, seq<string>)>, draws: Draws)
    ensures multiset(Loaded(datafile, authors, draws, Train)) + multiset(Loaded(datafile, authors, draws, Dev))
          + multiset(Loaded(datafile, authors, draws, Test)) == multiset(Loaded(datafile, authors, draws, All))
  {
    if authors != [] {
      var init := authors[..|authors| - 1];
      var last := authors[|authors| - 1];
      LoadedPartition(datafile, init, draws);
      ContributionPartition(datafile, last, draws);
    }
  }

  /** The loaded documents are a rearrangement of the works of the kept
      authors. */
  lemma {:induction false} LoadedRearrangesKept(datafile: string, authors: seq<(string, seq<string>)>, draws: Draws)
    ensures multiset(Loaded(datafile, authors, draws, All)) == multiset(Kept(datafile, authors))
  {
    if authors != [] {
      var init := authors[..|authors| - 1];
      var last := authors[|authors| - 1];
      LoadedRearrangesKept(datafile, init, draws);
      ContributionPartition(datafile, last, draws);
    }
  }

  /** The three folds of one author are that author's shuffled documents
      split without loss or overlap, and those are a rearrangement of the
      author's works. */
  lemma ContributionPartition(datafile: string, entry: (string, seq<string>), draws: Draws)
    ensures multiset(Contribution(datafile, entry, draws, Train)) + multiset(Contribution(datafile, entry, draws, Dev))
          + multiset(Contribution(datafile, entry, draws, Test)) == multiset(Contribution(datafile, entry, draws, All))
    ensures multiset(Contribution(datafile, entry, draws, All))
         == multiset(if |entry.1| >= MinWorks then Wrap(entry.0, entry.1, datafile) else [])
  {
    if |entry.1| >= MinWorks {
      var docs := AuthorDocs(entry.0, entry.1, datafile, draws);
      FoldSizes(docs);
      ShuffledIsPermutation(Wrap(entry.0, entry.1, datafile), draws);
    }
  }

  /** Appending the lists of a load to a partitioned corpus leaves it
      partitioned. */
  lemma AppendingLoadKeepsPartition(documents: seq<Document>, train: seq<Document>, dev: seq<Document>,
                                    test: seq<Document>, datafile: string,
                                    authors: seq<(string, seq<string>)>, draws: Draws)
    requires multiset(train) + multiset(dev) + multiset(test) == multiset(documents)
    ensures multiset(train + Loaded(datafile, authors, draws, Train))
          + multiset(dev + Loaded(datafile, authors, draws, Dev))
          + multiset(test + Loaded(datafile, authors, draws, Test))
         == multiset(documents + Loaded(datafile, authors, draws, All))
  {
    LoadedPartition(datafile, authors, draws);
  }

  /** One pass of the loop of `load` extends what has been appended to
      `part` by the contribution of the next author. */
  lemma LoadStep(start: seq<Document>, before: seq<Document>, after: seq<Document>, datafile: string,
                 authors: seq<(string, seq<string>)>, draws: Draws, a: nat, part: Part)
    requires a < |authors|
    requires before == start + Loaded(datafile, authors[..a], draws, part)
    requires after == before + Contribution(datafile, authors[a], draws, part)
    ensures after == start + Loaded(datafile, authors[..a + 1], draws, part)
  {
    LoadedStep(datafile, authors, draws, a, part);
    AppendAssociative(start, Loaded(datafile, authors[..a], draws, part), Contribution(datafile, authors[a], draws, part));
  }

  /** Concatenation is associative; stated once so that `LoadStep` need not
      rediscover it among the definitions of the load. */
  lemma AppendAssociative(x: seq<Document>, y: seq<Document>, z: seq<Document>)
    ensures (x + y) + z == x + (y + z)
  {
  }

  /** A kept document is a work of an author with at least `MinWorks` works,
      labelled with that author and with the data file as its source. */
  lemma {:induction false} KeptDocuments(datafile: string, authors: seq<(string, seq<string>)>, d: Document)
    requires d in Kept(datafile, authors)
    ensures d.source == Some(datafile)
    ensures exists i | 0 <= i < |authors| ::
      d.docLabel == Some(authors[i].0) && |authors[i].1| >= MinWorks && d.data in authors[i].1
  {
    var init := authors[..|authors| - 1];
    var last := authors[|authors| - 1];
    if d in Kept(datafile, init) {
      KeptDocuments(datafile, init, d);
      var i :| 0 <= i < |init| && d.docLabel == Some(init[i].0) && |init[i].1| >= MinWorks && d.data in init[i].1;
      assert authors[i] == init[i];
    } else {
      var docs := Wrap(last.0, last.1, datafile);
      var k :| 0 <= k < |docs| && docs[k] == d;
      assert d.data == last.1[k];
    }
  }

  /** An author with fewer than `MinWorks` works contributes no document to
      any of the four lists. */
  lemma AuthorBelowThresholdDropped(datafile: string, authors: seq<(string, seq<string>)>, draws: Draws,
                                    part: Part, author: string)
    requires forall i | 0 <= i < |authors| && authors[i].0 == author :: |authors[i].1| < MinWorks
    ensures forall d | d in Loaded(datafile, authors, draws, part) :: d.docLabel != Some(author)
  {
    LoadedRearrangesKept(datafile, authors, draws);
    forall d | d in Loaded(datafile, authors, draws, part)
      ensures d.docLabel != Some(author)
    {
      LoadedInAll(datafile, authors, draws, part, d);
      assert d in multiset(Kept(datafile, authors));
      KeptDocuments(datafile, authors, d);
    }
  }

  /** Every document of a fold is among the loaded documents. */
  lemma LoadedInAll(datafile: string, authors: seq<(string, seq<string>)>, draws: Draws, part: Part, d: Document)
    requires d in Loaded(datafile, authors, draws, part)
    ensures d in Loaded(datafile, authors, draws, All)
  {
    LoadedPartition(datafile, authors, draws);
    var all := multiset(Loaded(datafile, authors, draws, All));
    assert multiset(Loaded(datafile, authors, draws, part)) <= all by {
      match part
      case All =>
      case Train =>
      case Dev =>
      case Test =>
    }
    assert d in multiset(Loaded(datafile, authors, draws, part));
  }

  /** The documents of one author are the wrapped works rearranged by the
      permutation for their count: two authors with the same number of works
      have their works moved in the same way. */
  lemma AuthorDocsByPermutation(author: string, works: seq<string>, datafile: string, draws: Draws)
    ensures |AuthorDocs(author, works, datafile, draws)| == |works|
    ensures forall k | 0 <= k < |works| :: Permutation(|works|, draws)[k] < |works|
    ensures forall k | 0 <= k < |works| ::
      AuthorDocs(author, works, datafile, draws)[k] == Document(works[Permutation(|works|, draws)[k]], Some(author), Some(datafile))
  {
    ShuffledByPermutation(Wrap(author, works, datafile), draws);
  }

  /** The (name, `(author, works)` pairs) of each data file, in order. */
  type DataFiles = seq<(string, seq<(string, seq<string>)>)>

  /** What loading every data file in order appends to `part`. */
  function LoadedAll(files: DataFiles, draws: Draws, part: Part): (docs: seq<Document>)
    ensures forall d | d in docs :: exists f | 0 <= f < |files| :: d.source == Some(files[f].0)
  {
    if files == [] then []
    else
      var last := files[|files| - 1];
      LoadedAll(files[..|files| - 1], draws, part) + Loaded(last.0, last.1, draws, part)
  }

  /** The names of the data files. */
  function Names(files: DataFiles): (names: seq<string>)
    ensures |names| == |files| && forall i | 0 <= i < |files| :: names[i] == files[i].0
  {
    seq(|files|, i requires 0 <= i < |files| => files[i].0)
  }

  /** A Latin authors corpus: all its documents, the data files they came
      from, and the training, development and test folds. */
  class LatinAuthorsCorpus {
    var documents: seq<Document>
    var datafiles: seq<string>
    var trainData: seq<Document>
    var devData: seq<Document>
    var testData: seq<Document>

    /** The folds split the documents without loss or overlap. Loading keeps
        this; replacing or deleting a document acts on `documents` alone and
        does not. */
    ghost predicate FoldsPartition()
      reads this
    {
      multiset(trainData) + multiset(devData) + multiset(testData) == multiset(documents)
    }

    /** The corpus of the data files `files`, loaded one after the other;
        `draws` are the values `random()` gives after `seed(3)`. */
    constructor (files: DataFiles, draws: Draws)
      ensures datafiles == Names(files)
      ensures documents == LoadedAll(files, draws, All)
      ensures trainData == LoadedAll(files, draws, Train)
      ensures devData == LoadedAll(files, draws, Dev)
      ensures testData == LoadedAll(files, draws, Test)
      ensures FoldsPartition()
    {
      trainData, devData, testData := [], [], [];
      documents := [];
      datafiles := Names(files);
      new;
      var f := 0;
      while f < |files|
        invariant 0 <= f <= |files|
        invariant datafiles == Names(files)
        invariant documents == LoadedAll(files[..f], draws, All)
        invariant trainData == LoadedAll(files[..f], draws, Train)
        invariant devData == LoadedAll(files[..f], draws, Dev)
        invariant testData == LoadedAll(files[..f], draws, Test)
        invariant FoldsPartition()
      {
        assert files[..f + 1][..f] == files[..f];
        Load(files[f].0, files[f].1, draws);
        f := f + 1;
      }
      assert files[..f] == files;
    }

    /** `len(corpus)`: the number of documents, which is the total size of
        the three folds while they split the documents. */
    function Len(): (n: nat)
      reads this
      ensures n == |documents|
      ensures FoldsPartition() ==> n == |trainData| + |devData| + |testData|
    {
      assert |multiset(trainData) + multiset(devData) + multiset(testData)|
        == |trainData| + |devData| + |testData|;
      |documents|
    }

    /** `corpus[key]`: the document at `key`, counted from the end when
        negative; IndexError when out of range. */
    function GetItem(key: int): (r: Result<Document>)
      reads this
      ensures r.Ok? <==> -(|documents| as int) <= key < |documents|
      ensures r.Ok? ==> r.value == documents[ListIndex(|documents|, key).value]
      ensures r.Raise? ==> r.error.IndexError?
    {
      match ListIndex(|documents|, key)
      case Some(i) => Ok(documents[i])
      case None => Raise(IndexError("list index out of range"))
    }

    /** `corpus[key] = value`: replaces the document at `key` and nothing else. */
    method SetItem(key: int, value: Document) returns (r: Result<()>)
      modifies this
      ensures r.Ok? <==> -(|old(documents)| as int) <= key < |old(documents)|
      ensures r.Ok? ==> documents == old(documents)[ListIndex(|old(documents)|, key).value := value]
      ensures r.Raise? ==> r.error.IndexError? && documents == old(documents)
      ensures datafiles == old(datafiles) && trainData == old(trainData)
      ensures devData == old(devData) && testData == old(testData)
    {
      match ListIndex(|documents|, key)
      case Some(i) =>
        documents := documents[i := value];
        r := Ok(());
      case None =>
        r := Raise(IndexError("list assignment index out of range"));
    }

    /** `del corpus[key]`: removes the document at `key` and nothing else. */
    method DelItem(key: int) returns (r: Result<()>)
      modifies this
      ensures r.Ok? <==> -(|old(documents)| as int) <= key < |old(documents)|
      ensures r.Ok? ==> |documents| == |old(documents)| - 1
      ensures r.Ok? ==> var i := ListIndex(|old(documents)|, key).value;
        documents == old(documents)[..i] + old(documents)[i + 1..]
      ensures r.Raise? ==> r.error.IndexError? && documents == old(documents)
      ensures datafiles == old(datafiles) && trainData == old(trainData)
      ensures devData == old(devData) && testData == old(testData)
    {
      match ListIndex(|documents|, key)
      case Some(i) =>
        documents := documents[..i] + documents[i + 1..];
        r := Ok(());
      case None =>
        r := Raise(IndexError("list assignment index out of range"));
    }

    /** The body of `load` for one author with at least `MinWorks` works:
        wrap the works, shuffle them, append them to `documents` and their
        three slices to the folds. */
    method LoadAuthor(datafile: string, author: string, works: seq<string>, draws: Draws)
      requires |works| >= MinWorks
      modifies this
      ensures documents == old(documents) + Portion(AuthorDocs(author, works, datafile, draws), All)
      ensures trainData == old(trainData) + Portion(AuthorDocs(author, works, datafile, draws), Train)
      ensures devData == old(devData) + Portion(AuthorDocs(author, works, datafile, draws), Dev)
      ensures testData == old(testData) + Portion(AuthorDocs(author, works, datafile, draws), Test)
      ensures datafiles == old(datafiles)
    {
      var docs := new Document[|works|];
      var w := 0;
      while w < |works|
        modifies docs
        invariant 0 <= w <= |works|
        invariant docs[..w] == Wrap(author, works, datafile)[..w]
      {
        docs[w] := Document(works[w], Some(author), Some(datafile));
        w := w + 1;
      }
      assert docs[..] == Wrap(author, works, datafile);
      assert docs.Length >= 5;
      ShuffleInPlace(docs, draws);
      ghost var shuffled := AuthorDocs(author, works, datafile, draws);
      var k := docs.Length / 2;
      var j := 3 * docs.Length / 4;
      assert docs[..] == shuffled == Portion(shuffled, All);
      assert docs[..k] == Portion(shuffled, Train);
      assert docs[k..j] == Portion(shuffled, Dev);
      assert docs[j..] == Portion(shuffled, Test);
      documents := documents + docs[..];
      trainData := trainData + docs[..k];
      devData := devData + docs[k..j];
      testData := testData + docs[j..];
    }

    /** One pass of the loop of `load`: an author below the threshold is
        skipped, any other is loaded. */
    method LoadEntry(datafile: string, entry: (string, seq<string>), draws: Draws)
      modifies this
      ensures documents == old(documents) + Contribution(datafile, entry, draws, All)
      ensures trainData == old(trainData) + Contribution(datafile, entry, draws, Train)
      ensures devData == old(devData) + Contribution(datafile, entry, draws, Dev)
      ensures testData == old(testData) + Contribution(datafile, entry, draws, Test)
      ensures datafiles == old(datafiles)
    {
      var (author, works) := entry;
      if |works| >= MinWorks {
        LoadAuthor(datafile, author, works, draws);
      } else {
        assert documents + [] == documents && trainData + [] == trainData;
        assert devData + [] == devData && testData + [] == testData;
      }
    }

    /** `load(datafile)` on the `(author, works)` pairs read from it: each
        author with at least `MinWorks` works has the works wrapped as
        documents, shuffled, appended to `documents` and split into the three
        folds; the lists are only ever appended to. */
    method Load(datafile: string, authors: seq<(string, seq<string>)>, draws: Draws)
      modifies this
      ensures documents == old(documents) + Loaded(datafile, authors, draws, All)
      ensures trainData == old(trainData) + Loaded(datafile, authors, draws, Train)
      ensures devData == old(devData) + Loaded(datafile, authors, draws, Dev)
      ensures testData == old(testData) + Loaded(datafile, authors, draws, Test)
      ensures datafiles == old(datafiles)
      ensures old(FoldsPartition()) ==> FoldsPartition()
    {
      var a := 0;
      while a < |authors|
        invariant 0 <= a <= |authors|
        invariant documents == old(documents) + Loaded(datafile, authors[..a], draws, All)
        invariant trainData == old(trainData) + Loaded(datafile, authors[..a], draws, Train)
        invariant devData == old(devData) + Loaded(datafile, authors[..a], draws, Dev)
        invariant testData == old(testData) + Loaded(datafile, authors[..a], draws, Test)
        invariant datafiles == old(datafiles)
      {
        ghost var before := (documents, trainData, devData, testData);
        LoadEntry(datafile, authors[a], draws);
        LoadStep(old(documents), before.0, documents, datafile, authors, draws, a, All);
        LoadStep(old(trainData), before.1, trainData, datafile, authors, draws, a, Train);
        LoadStep(old(devData), before.2, devData, datafile, authors, draws, a, Dev);
        LoadStep(old(testData), before.3, testData, datafile, authors, draws, a, Test);
        a := a + 1;
      }
      assert authors[..a] == authors;
      if old(FoldsPartition()) {
        AppendingLoadKeepsPartition(old(documents), old(trainData), old(devData), old(testData), datafile, authors, draws);
      }
    }
  }
}
