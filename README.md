# Latin author identifier: corpus preparation, corpus loading and evaluation

This project models the core of a Latin authorship classifier in Dafny and
proves properties of that model. The core has three parts.

- **Corpus preparation** (`latin_authors_corpus_prep.py`). Each work is a
  TEI document that has already been parsed from JSON.
  - `recursive_find_text` walks the parsed value. It concatenates every
    string it reaches, each followed by a space. A dictionary is read only
    under a fixed, ordered list of TEI tags.
  - `find_text` finds the body of the document inside the `TEI.2`
    envelope: either `text.body`, or the body or bodies of `text.group.text`.
  - The main block rejects works with no text. It groups the texts by the
    author directory named in each path (`json_corpus`).
- **Corpus loading** (`corpus.py`).
  - A `Document` holds a text, a label and a source, and has an abbreviated
    display form.
  - A corpus is a mutable container of documents.
  - `LatinAuthorsCorpus.load` keeps the authors with at least five works.
    It wraps their works as documents and shuffles each author's documents
    with the generator reseeded to 3. It splits them at `int(0.5 n)` and
    `int(0.75 n)` into training, development and test folds. Then it appends
    everything to four lists held by the corpus.
- **Evaluation** (`test_latin_texts.py`): `accuracy`, `recall`,
  `precision`, `f1` and `avg_f1` over a test fold.

Modules:

- `Python` (`python.dfy`): `None` or a value, raised exceptions, and a result
  that is a value or a raised exception.
- `Json` (`json.dfy`): the parsed JSON value. It also has the dynamic Python
  operations the preparation code applies to it: `key in v`, `v[key]`, and
  the type name used in error messages.
- `CorpusPrep` (`corpus_prep.dfy`):
  - the walk (`FindTextRec`) and body selection (`FindText`), written as
    functions;
  - the grouping loop (`PrepareCorpus`), written as a method with a loop over
    the files, proved equal to the function `Prepared`.
- `Shuffle` (`shuffle.dfy`): Python 2.7's `random.shuffle`, that is the
  Fisher–Yates loop `j = int(random() * (i + 1))`, with the product taken
  exactly (see "## Left out").
  - `ShuffleInPlace` runs it in place on an array.
  - `Shuffled` specifies it: `Picks` turns the values of `random()` into the
    index drawn in each round, and `ShuffleFrom` applies the rounds.
  - The values returned by `random()` are a parameter (`Draws`).
- `Corpus` (`corpus.dfy`):
  - `Document` and `Abbrev`;
  - the class `LatinAuthorsCorpus`, with fields `documents`, `datafiles`,
    `trainData`, `devData` and `testData`, its container methods, and
    `Load`, proved against the function `Loaded`.
- `Metrics` (`metrics.dfy`): the measures over a fold, given as aligned lists
  of gold labels and predictions.
  - The per-label loops of `recall`, `precision` and `f1`, and the sum of
    `avg_f1`, are methods that build maps.
  - Each is proved against per-label functions.
  - Ratios are exact reals, as `from __future__ import division` makes `/`
    true division.

The seed is reset to 3 before every shuffle, so every shuffle reads the same
values of `random()`. `ShuffledByPermutation` and `AuthorDocsByPermutation`
prove that each author's works are therefore rearranged by one fixed
permutation of their positions. That permutation depends only on how many
works the author has. Loading is a function of its input (`Load` ends in
`old(...) + Loaded(...)`), so loading the same input twice gives the same
folds in the same order.

## Model

| member | source | states |
|---|---|---|
| Json.ScalarTypeNames | latin_authors_corpus_prep.py:65 | `type(item).__name__` of a JSON integer is `int` between `-sys.maxint - 1` and `sys.maxint` on a 64-bit Linux or macOS build and `long` beyond; a float, a boolean, `null` and a string are `float`, `bool`, `NoneType` and `unicode`. |
| Json.Contains | latin_authors_corpus_prep.py:24-29 | `key in v` tests the keys of a dictionary, the elements of a list and the substrings of a string. Every other value raises TypeError `argument of type '<type>' is not iterable`. |
| Json.Subscript | latin_authors_corpus_prep.py:24-33 | `v[key]` succeeds exactly on a dictionary holding `key` and returns its value. A dictionary without the key raises `KeyError(key)`; any other value raises TypeError. |
| CorpusPrep.FindTextRec | latin_authors_corpus_prep.py:44-68 | A successful extraction is empty or ends with a space. The only exception the walk raises is TypeError. |
| CorpusPrep.FindTextItems | latin_authors_corpus_prep.py:55-58 | The list loop yields the empty text or a text ending in a space, and raises only TypeError. |
| CorpusPrep.FindTextTags | latin_authors_corpus_prep.py:59-63 | The tag loop yields the empty text or a text ending in a space, and raises only TypeError. |
| CorpusPrep.FindTextLeaves | latin_authors_corpus_prep.py:50-68 | `None` gives `""`. A string `s` gives `s + " "`. An integer, a float or a bool raises TypeError with the message `This item is a <type>. ...` naming its type, `long` for an integer beyond `sys.maxint`. |
| CorpusPrep.FindTextOkIffWalkable | latin_authors_corpus_prep.py:50-68 | The walk succeeds if and only if every value reached through list items and whitelisted tags is `None`, a string, a list or a dictionary. |
| CorpusPrep.FindTextItemsOkIffWalkable | latin_authors_corpus_prep.py:55-58 | The list loop succeeds if and only if every item is walkable. |
| CorpusPrep.FindTextTagsOkIffWalkable | latin_authors_corpus_prep.py:59-63 | The tag loop succeeds if and only if every value under a present tag is walkable. |
| CorpusPrep.FindTextListAppend | latin_authors_corpus_prep.py:55-58 | The text of list `xs + ys` is the text of `xs` followed by the text of `ys`. The first error wins. |
| CorpusPrep.FindTextItemsAppend | latin_authors_corpus_prep.py:55-58 | The list loop distributes over concatenation. |
| CorpusPrep.FindTextTagsAgree | latin_authors_corpus_prep.py:59-63 | Two dictionaries that agree on the whitelisted tags give the same result, in the fixed tag order. |
| CorpusPrep.FindTextIgnoresOtherKeys | latin_authors_corpus_prep.py:59-63 | Adding, replacing or removing a non-whitelisted key leaves the result unchanged, even when the value there would raise. |
| CorpusPrep.FindText | latin_authors_corpus_prep.py:17-41 | A document yields text only when `TEI.2` and `TEI.2.text` are dictionaries, and the text is empty or ends with a space. The only exceptions are KeyError and TypeError. |
| CorpusPrep.FindTextGroup | latin_authors_corpus_prep.py:31-33 | Iterating a group text yields the empty text or one ending in a space, and raises only KeyError or TypeError. A dictionary or a string succeeds, with the empty text, if and only if it is empty, since its elements are strings that reject the `'body'` subscript. |
| CorpusPrep.FindTextBodies | latin_authors_corpus_prep.py:32-33 | The loop over group texts succeeds only if every element is a dictionary with a `body`. Its text is empty or ends in a space, and it raises only KeyError or TypeError. |
| CorpusPrep.FindTextMissingEnvelope | latin_authors_corpus_prep.py:24-41 | A document without `TEI.2`, or whose `TEI.2` lacks `text`, raises KeyError with the envelope message naming the file. |
| CorpusPrep.FindTextBodyFirst | latin_authors_corpus_prep.py:26-27 | A `body` under `TEI.2.text` is extracted and takes precedence over any `group`. |
| CorpusPrep.FindTextGroupBody | latin_authors_corpus_prep.py:28-30 | Otherwise, a `group.text` dictionary with a `body` has that body extracted. |
| CorpusPrep.FindTextGroupList | latin_authors_corpus_prep.py:31-33 | Otherwise, a `group.text` list of dictionaries with bodies gives the concatenated texts of the bodies, in list order. |
| CorpusPrep.FindTextBodiesOfDicts | latin_authors_corpus_prep.py:32-33 | The loop over the group texts equals the list walk over their bodies. |
| CorpusPrep.FindTextNoBody | latin_authors_corpus_prep.py:34-36 | With neither `body` nor `group.text`, KeyError is raised with the body message naming the file. |
| CorpusPrep.Split | latin_authors_corpus_prep.py:82 | `split` yields at least one piece. No piece holds the separator, and joining the pieces with it gives back the string. |
| CorpusPrep.SplitAfterSeparator | latin_authors_corpus_prep.py:82 | Splitting `p + sep + q`, with `p` free of separators, gives `p` followed by the pieces of `q`. |
| CorpusPrep.AuthorOf | latin_authors_corpus_prep.py:82 | The author is found if and only if the path holds a separator, and it is then the second piece of `split(os.sep)`, free of separators. Otherwise IndexError `list index out of range` is raised. |
| CorpusPrep.AuthorOfWork | latin_authors_corpus_prep.py:82 | A work at `dir/author/...` is filed under `author`. |
| CorpusPrep.FileEntry | latin_authors_corpus_prep.py:78-82 | A kept entry holds the text `find_text` returned, which is non-empty, and the author from its path. An exception of `find_text` passes through. An empty text raises ValueError naming the file. A non-empty text under a path without separator raises the IndexError of `AuthorOf`. |
| CorpusPrep.Entries | latin_authors_corpus_prep.py:77-82 | A successful run has one entry per file. |
| CorpusPrep.EntriesAt | latin_authors_corpus_prep.py:77-82 | A run succeeds if and only if every file gives an entry, and then entry `i` is the `FileEntry` of file `i`. |
| CorpusPrep.CollectAt | latin_authors_corpus_prep.py:77-82 | For any loop body `f`, collecting succeeds if and only if `f` succeeds on every element, and then result `i` is that of element `i`. |
| CorpusPrep.File | latin_authors_corpus_prep.py:83-86 | Filing a text adds its author to the keys. Under that author it appends the text to the existing list, or starts a new list holding the text; every other author keeps its list. |
| CorpusPrep.Group | latin_authors_corpus_prep.py:76-86 | Every author of an entry is a key, and no author's list is empty. |
| CorpusPrep.Prepared | latin_authors_corpus_prep.py:76-86 | The main block succeeds exactly when every file gives an entry, and otherwise raises the first exception. Every list of the grouped corpus is non-empty. |
| CorpusPrep.GroupByAuthor | latin_authors_corpus_prep.py:83-86 | An author is a key if and only if one of its works occurs. Its list holds exactly its texts in file order; a new list is created on the first work. |
| CorpusPrep.EntriesStopAtFirstError | latin_authors_corpus_prep.py:77-80 | The first file that raises decides the outcome of the whole run. |
| CorpusPrep.PreparedTextsNonEmpty | latin_authors_corpus_prep.py:79-86 | Every text of a prepared corpus is non-empty. |
| CorpusPrep.EntriesNonEmpty | latin_authors_corpus_prep.py:79-80 | Every entry of a successful run has a non-empty text. |
| CorpusPrep.TextsByNonEmpty | latin_authors_corpus_prep.py:83-86 | Selecting one author's texts keeps the non-emptiness of the entries. |
| CorpusPrep.PrepareCorpus | latin_authors_corpus_prep.py:76-86 | The loop returns exactly `Prepared(files)`: the grouped corpus of `GroupByAuthor`, or the first exception. |
| Shuffle.Pick | corpus.py:83 | `int(random() * (i + 1))` is an index no greater than `i`. |
| Shuffle.Swap | corpus.py:83 | A swap exchanges the two positions and keeps every other one. |
| Shuffle.Picks | corpus.py:82-83 | After `seed(3)`, call number `c` of a shuffle of `n` elements draws an index below `n - c`, the bound of its round. |
| Shuffle.PickIsDrawn | corpus.py:82-83 | The index drawn by call `c` is `int(random() * (n - c))`, computed from that call's value of `random()`. |
| Shuffle.ShuffleFrom | corpus.py:83 | The rounds of the shuffle from `i` down to 1 keep the length of the list. |
| Shuffle.Shuffled | corpus.py:82-83 | `random.shuffle` after `seed(3)` keeps the length of the list. |
| Shuffle.ShuffleFromIsPermutation | corpus.py:83 | The rounds of the shuffle keep the length and the multiset of elements. |
| Shuffle.ShuffledIsPermutation | corpus.py:83 | The shuffled list is a permutation of the input. |
| Shuffle.ShuffleFromTracks | corpus.py:82-83 | The rounds only look at positions: a list that holds at each `k` the element of `s` at `p[k]` still does so after the same rounds are applied to both it and `p`. |
| Shuffle.ShuffleFromByPositions | corpus.py:82-83 | The rounds applied to `s` place at `k` the element of `s` at the position the same rounds place at `k` in `0 .. n-1`. |
| Shuffle.PermutationOfPositions | corpus.py:82-83 | The permutation for length `n` is a rearrangement of `0 .. n-1`. |
| Shuffle.ShuffledByPermutation | corpus.py:82-83 | The shuffled list holds at `k` the element at `Permutation(n)[k]`, so the permutation depends only on the length. |
| Shuffle.ShuffleDependsOnlyOnLength | corpus.py:82-83 | Two lists of the same length move their elements to the same positions. |
| Shuffle.SwapInPlace | corpus.py:83 | The in-place exchange of two array cells leaves the array equal to `Swap` of its old contents. |
| Shuffle.ShuffleInPlace | corpus.py:83 | The in-place Fisher–Yates loop leaves the array equal to `Shuffled` of its old contents. |
| Corpus.Abbrev | corpus.py:33-35 | The result has length at most 33. A text shorter than 30 is returned unchanged; otherwise the result is its first 30 characters followed by `"..."`. |
| Corpus.AbbrevIdempotent | corpus.py:33-35 | Abbreviating an abbreviation changes nothing. |
| Corpus.ListIndex | corpus.py:55-57 | A list index is valid if and only if it is in `-n .. n-1`. A negative index counts from the end. |
| Corpus.Wrap | corpus.py:78-80 | Each work becomes a document with that text, `label = author` and `source = datafile`, in order. |
| Corpus.AuthorDocs | corpus.py:78-83 | An author's shuffled documents are, as a multiset, the author's wrapped works. |
| Corpus.Portion | corpus.py:84-89 | Each of the slices `[:k]`, `[k:j]` and `[j:]`, and the whole list, is no longer than the author's documents and holds only documents of that author. |
| Corpus.Contribution | corpus.py:77-89 | An author below the threshold contributes nothing. Every contributed document is one of the author's works, labelled with the author and with the data file as source. |
| Corpus.Loaded | corpus.py:76-89 | Every document a load appends has the data file as source and carries a label. |
| Corpus.LoadedAll | corpus.py:46-50 | Every document of the corpus comes from one of its data files. |
| Corpus.FoldSizes | corpus.py:84-89 | The three slices concatenate back to the shuffled list, with sizes `n/2`, `3n/4 - n/2` and `n - 3n/4`. All three are non-empty if and only if `n >= 3`; n=5 gives 2/1/2 and n=8 gives 4/2/2. |
| Corpus.LoadedStep | corpus.py:76-89 | Loading one more author appends that author's contribution. |
| Corpus.LoadStep | corpus.py:76-89 | One pass of the load loop extends each list by the next author's contribution. |
| Corpus.ContributionPartition | corpus.py:77-89 | One author's three folds add up, as multisets, to the author's shuffled documents. Those are a permutation of the author's wrapped works, or nothing below the threshold. |
| Corpus.LoadedPartition | corpus.py:76-89 | The three folds of a load add up, as multisets, to the loaded documents. |
| Corpus.LoadedRearrangesKept | corpus.py:76-89 | The loaded documents are a permutation of the wrapped works of the kept authors. |
| Corpus.AppendingLoadKeepsPartition | corpus.py:86-89 | Appending a load to folds that partition the documents keeps them a partition. |
| Corpus.KeptDocuments | corpus.py:77-80 | Every kept document is a work of an author with at least 5 works, labelled with that author, with the data file as source. |
| Corpus.AuthorBelowThresholdDropped | corpus.py:77 | An author with fewer than 5 works contributes no document to any of the four lists. |
| Corpus.LoadedInAll | corpus.py:86-89 | Every document of a fold is among the loaded documents. |
| Corpus.AuthorDocsByPermutation | corpus.py:78-83 | An author's shuffled documents are its wrapped works rearranged by the permutation for their count. |
| Corpus.LatinAuthorsCorpus.constructor | corpus.py:46-50 | Each data file is loaded in order. The fields are the concatenated loads, and the folds partition the documents. |
| Corpus.LatinAuthorsCorpus.Len | corpus.py:53 | `len` is the number of documents. While the folds partition the documents, it is also the total size of the training, development and test folds. |
| Corpus.LatinAuthorsCorpus.GetItem | corpus.py:55 | `corpus[key]` succeeds if and only if `key` is in range, counting negatives from the end; otherwise IndexError. |
| Corpus.LatinAuthorsCorpus.SetItem | corpus.py:56 | Only the document at `key` is replaced, and no other field changes. An out-of-range key raises IndexError and changes nothing. |
| Corpus.LatinAuthorsCorpus.DelItem | corpus.py:57 | Exactly the document at `key` is removed and the length shrinks by one. An out-of-range key raises IndexError and changes nothing. |
| Corpus.LatinAuthorsCorpus.LoadAuthor | corpus.py:78-89 | The works are wrapped, shuffled in place and appended as `AuthorDocs`. The slices at `n/2` and `3n/4` go to the folds. |
| Corpus.LatinAuthorsCorpus.LoadEntry | corpus.py:76-89 | An author below the threshold changes nothing. Any other author is appended as by `LoadAuthor`. |
| Corpus.LatinAuthorsCorpus.Load | corpus.py:73-89 | Each of the four lists becomes its old contents followed by `Loaded` for that list, so the old contents stay a prefix. `datafiles` is unchanged, and folds that partitioned the documents still do. |
| Metrics.Matches | test_latin_texts.py:33 | The count of correct predictions is at most the fold length. It equals the length if and only if every prediction is right. |
| Metrics.Support | test_latin_texts.py:45-48 | The count of `l` is its multiplicity. It is positive if and only if `l` occurs. |
| Metrics.TruePos | test_latin_texts.py:45 | True positives never exceed the gold support or the predicted support. |
| Metrics.FalseNeg | test_latin_texts.py:46 | There are no false negatives if and only if every document labelled `l` is predicted as `l`. |
| Metrics.FalsePos | test_latin_texts.py:63 | There are no false positives if and only if every document predicted as `l` is labelled `l`. |
| Metrics.RecallDenominator | test_latin_texts.py:45-48 | TP + FN is the number of documents labelled `l`. |
| Metrics.PrecisionDenominator | test_latin_texts.py:62-65 | TP + FP is the number of documents predicted as `l`. |
| Metrics.Ratio | test_latin_texts.py:47-50 | A zero denominator gives 0.0. A ratio of a count to a larger one lies in [0, 1], and it is 1 if and only if the two are equal and non-zero. |
| Metrics.Accuracy | test_latin_texts.py:32-40 | An empty fold raises ZeroDivisionError. The message is `float division by zero` when `verbose` is set, since the display divides first, and `division by zero` otherwise. Otherwise the result is the number of correct predictions divided by the length; it lies in [0, 1] and is 1 if and only if every prediction is right. |
| Metrics.RecallOf | test_latin_texts.py:44-50 | Recall is TP / (number labelled `l`), or 0.0 when `l` labels nothing, and lies in [0, 1]. It is 1 if and only if `l` occurs and is always predicted. |
| Metrics.PrecisionOf | test_latin_texts.py:61-67 | Precision is TP / (number predicted `l`), or 0.0 when nothing is predicted `l`, and lies in [0, 1]. It is 1 if and only if `l` is predicted and always rightly. |
| Metrics.HarmonicMeanBetween | test_latin_texts.py:81-84 | For `0 <= r <= p` with `p > 0`, `2rp / (r + p)` lies between `r` and `p`. |
| Metrics.F1Score | test_latin_texts.py:81-84 | For non-negative `r`, `p`, F1 lies between `min(r, p)` and `max(r, p)`. It is 0 if and only if either is 0. |
| Metrics.F1Of | test_latin_texts.py:79-84 | A label's F1 lies in [0, 1]. It is 0 if and only if its recall or its precision is 0. |
| Metrics.UnsupportedLabelScoresZero | test_latin_texts.py:93-99 | A label that labels no document scores 0 and so lowers the average. |
| Metrics.Recall | test_latin_texts.py:42-57 | The loop builds one entry per known label, each its recall. |
| Metrics.Precision | test_latin_texts.py:59-74 | The loop builds one entry per known label, each its precision. |
| Metrics.F1 | test_latin_texts.py:76-91 | The loop over the recall table builds the same keys, each the F1 of its recall and precision. |
| Metrics.SumF1Remove | test_latin_texts.py:99 | The sum of the F1 values does not depend on the order in which the table yields them. |
| Metrics.SumF1Bounds | test_latin_texts.py:99 | The sum of the F1 values lies in [0, number of labels]. |
| Metrics.MeanF1 | test_latin_texts.py:93-99 | The mean F1 over the known labels lies in [0, 1]. |
| Metrics.MeanF1OfTwo | test_latin_texts.py:99 | With two distinct labels the mean is half the sum of their F1 values. |
| Metrics.AvgF1 | test_latin_texts.py:93-99 | An empty label set raises ZeroDivisionError: `float division by zero` when `verbose` is set and `division by zero` otherwise. Otherwise the result is the mean F1 over the distinct labels, in [0, 1]. |
| Metrics.ExampleCounts | test_latin_texts.py:33-65 | Gold [A,A,B,B] with predictions [A,B,B,B]: 3 correct; A has TP 1, support 2 and 1 prediction; B has TP 2, support 2 and 3 predictions. |
| Metrics.ExampleAccuracy | test_latin_texts.py:32-40 | In that example, accuracy is 3/4, with or without `verbose`. |
| Metrics.ExampleRecallPrecision | test_latin_texts.py:42-74 | In that example, recall is A 1/2 and B 1, and precision is A 1 and B 2/3. |
| Metrics.ExampleF1 | test_latin_texts.py:76-91 | In that example, F1 is A 2/3 and B 4/5. |
| Metrics.ExampleMeanF1 | test_latin_texts.py:93-99 | In that example, the average F1 is 11/15. |

## Left out

- File and OS input/output is not modelled; the model starts from already-parsed JSON values.
  - This covers `open_json`, `codecs.open`, file discovery with `os.walk` and `glob`, `json.loads` and `json.dump`.
  - `find_text` takes the path and the parsed document.
  - The grouping loop takes the (path, document) pairs in the order discovered.
  - `load` takes the (author, works) pairs read from its file.
- Corpus construction: `Corpus.__init__` globs its pattern; the constructor takes the list of data files and their contents instead.
- The `document_class` parameter is always `Document`, and the abstract `Corpus.load` is not modelled separately.
- `Corpus.__iter__` is not modelled; iteration yields `documents` in order.
- `corpus[key]` with a slice key is not modelled, only integer keys.
- `Document.feature_vector` and `Document.features` are not modelled; no modelled operation uses them.
- The Mersenne Twister behind `random()` and `seed(3)` is not modelled.
  - The values `random()` returns after `seed(3)` are the `Draws` parameter.
  - The same values are used for every shuffle, because the seed is reset each time.
- Python 2 dictionary iteration order is not modelled. The authors of a data file are given as a sequence of pairs, in whatever order the dictionary yields them.
- The split points `int(0.5 * n)` and `int(0.75 * n)` are modelled as `n / 2` and `3 * n / 4`. The two are equal for every list length a corpus can reach.
- `os.sep` is taken to be `/`.
- Floating-point rounding of the metrics is not modelled; the ratios are exact reals.
- Shuffle.Pick: the index is the floor of the exact product `u * (i + 1)`, while CPython floors the product rounded to a double. The two can differ by one when the draw lies within 2^-53 of a multiple of 1/(i + 1). For example, u = 6004799503160661/2^53 with bound 3 gives 2 in Python and 1 in the model. The properties proved about the shuffle hold for any draws, so none depends on this.
- Metrics.AvgF1: the mean is over the distinct known labels. This is the set of keys of the F1 table, and it is summed in whatever order the table yields it, since exact addition does not depend on order.
- The classifier is not modelled: its predictions on the fold are the aligned list `pred`.
- `get_labels` is not modelled, since it reads the classifiers' internals. The known labels are a parameter.
- The verbose output is only partly modelled. Its percentage formatting and `print >>` are left out. Of its effects on results, only one is modelled: with an empty fold or label table, the display's float division raises first (`Accuracy`, `AvgF1`). The display's other exceptions are listed in the next lines.
- Metrics.Accuracy: in verbose mode the source also raises IndexError when `str()` prints a non-zero percentage in exponent form (below 0.0001%, which needs more than a million documents), because the display splits it at a `.`; the model returns the ratio there. The same corner case of the verbose displays of `recall`, `precision` and `f1` is not modelled either.
- Metrics.AvgF1: in verbose mode the source raises exceptions that the model does not, so its contract, which says it raises only on an empty label table, holds only for labels and scores the display can print. The displays of `recall`, `precision` and `f1` build `str(label)` (test_latin_texts.py:54, 71, 88); the labels are `unicode` keys read from JSON, so a non-ASCII author name raises UnicodeEncodeError in Python 2. A score whose percentage `str()` prints in exponent form raises IndexError at the split on `.` (test_latin_texts.py:55, 72, 89, 97). The model treats labels as abstract values and scores as exact reals, so it has neither.
- `LatinText.features` is not modelled. It depends on Unicode `lower` and `split`, and is not used by any modelled operation.
- The `unittest` test methods and the checks of the `models/` directory are not modelled.
- Python's recursion limit on deeply nested documents is not modelled.
- `sys.maxint` is taken to be that of a 64-bit Linux or macOS build, `2**63 - 1` (64-bit Windows builds of Python 2 have `2**31 - 1`); it decides whether a JSON integer is named `int` or `long` in messages.
- The exception messages are those of CPython 2.7 for `str` keys, as the keys in `find_text` are byte-string literals. `FindTextLeaves`, `FindTextMissingEnvelope`, `FindTextNoBody`, `FileEntry`, `AuthorOf`, `Contains`, `Accuracy` and `AvgF1` state the full messages. The other lemmas and functions state the exception kind only.
- CorpusPrep.Entries: its own contract gives only the number of entries; which entry belongs to which file is stated by `EntriesAt`.
- Corpus.LatinAuthorsCorpus.SetItem and Corpus.LatinAuthorsCorpus.DelItem act on `documents` alone, as the source does. They therefore do not keep the folds a partition of the documents.
