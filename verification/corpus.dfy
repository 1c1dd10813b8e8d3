/** Loading a corpus directory into maps keyed by document id
    (`docs_by_id` and `tokens_by_doc_id` in `doc2vec/data/doc.py`).

    The directory listing and the file reads are one abstract input: the
    entries in listing order, each with its name and its full contents.
    The tokenizer is a parameter. */
module Corpus {
  import opened Wrappers
  import opened DocIds

  /** A listed file: the name `os.listdir` gives and the text `_read` returns. */
  datatype Entry = Entry(name: string, contents: string)

  /** The directory-joined path of entry `i`, as `_full_paths` builds it. */
  function PathAt(directory: string, listing: seq<Entry>, i: int): string
    requires 0 <= i < |listing|
  {
    Join(directory, listing[i].name)
  }

  function IdAt(directory: string, listing: seq<Entry>, i: int): Result<string, DocIdError>
    requires 0 <= i < |listing|
  {
    DocId(PathAt(directory, listing, i))
  }

  /** No entry listed after entry `i` has the same id. */
  predicate LastWithId(directory: string, listing: seq<Entry>, i: int)
    requires 0 <= i < |listing|
  {
    forall j | i < j < |listing| :: IdAt(directory, listing, j) != IdAt(directory, listing, i)
  }

  /** The (key, value) pairs the comprehension in `docs_by_id` produces,
      in listing order; a key is the `_doc_id` of the joined path. */
  function Keyed(directory: string, listing: seq<Entry>): (items: seq<(Result<string, DocIdError>, string)>)
    ensures |items| == |listing|
    ensures forall i | 0 <= i < |listing| :: items[i] == (IdAt(directory, listing, i), listing[i].contents)
  {
    seq(|listing|, i requires 0 <= i < |listing| => (IdAt(directory, listing, i), listing[i].contents))
  }

  /** A Python dict comprehension whose key expression may raise: items
      are inserted in order, a later key overwrites an earlier equal one,
      and the first raising key aborts the whole comprehension. */
  function Comprehension<K(==), V, E>(items: seq<(Result<K, E>, V)>): Result<map<K, V>, E>
    decreases |items|
  {
    if |items| == 0 then Success(map[])
    else
      var last := |items| - 1;
      match Comprehension(items[..last])
      case Failure(e) => Failure(e)
      case Success(m) =>
        match items[last].0
        case Failure(e) => Failure(e)
        case Success(k) => Success(m[k := items[last].1])
  }

  /** The comprehension fails exactly when some key raises, with the error
      of the first one. */
  lemma {:induction false} ComprehensionFails<K, V, E>(items: seq<(Result<K, E>, V)>)
    ensures Comprehension(items).Failure? <==> exists i | 0 <= i < |items| :: items[i].0.Failure?
    ensures Comprehension(items).Failure? ==>
              exists i | 0 <= i < |items| ::
                && items[i].0 == Failure(Comprehension(items).error)
                && forall j | 0 <= j < i :: items[j].0.Success?
    decreases |items|
  {
    if |items| > 0 {
      var last := |items| - 1;
      var pre := items[..last];
      ComprehensionFails(pre);
      if Comprehension(pre).Failure? {
        var i :| 0 <= i < |pre| && pre[i].0 == Failure(Comprehension(pre).error)
                 && forall j | 0 <= j < i :: pre[j].0.Success?;
        assert items[i] == pre[i];
        assert forall j | 0 <= j < i :: items[j] == pre[j];
      } else {
        assert forall j | 0 <= j < last :: items[j] == pre[j];
      }
    }
  }

  /** On success the keys are exactly the computed keys. */
  lemma {:induction false} ComprehensionKeys<K, V, E>(items: seq<(Result<K, E>, V)>)
    ensures Comprehension(items).Success? ==>
              forall k :: k in Comprehension(items).value <==>
                exists i | 0 <= i < |items| :: items[i].0 == Success(k)
    decreases |items|
  {
    if |items| > 0 && Comprehension(items).Success? {
      var last := |items| - 1;
      var pre := items[..last];
      ComprehensionKeys(pre);
      assert forall j | 0 <= j < last :: items[j] == pre[j];
    }
  }

  /** No item after `i` carries the same key. */
  ghost predicate LastWithKey<K, V, E>(items: seq<(Result<K, E>, V)>, i: int)
    requires 0 <= i < |items|
  {
    forall j | i < j < |items| :: items[j].0 != items[i].0
  }

  /** On success a key maps to the value of the last item carrying it. */
  lemma {:induction false} ComprehensionLastWins<K, V, E>(items: seq<(Result<K, E>, V)>, i: int)
    requires 0 <= i < |items| && LastWithKey(items, i)
    requires Comprehension(items).Success?
    ensures items[i].0.Success?
    ensures items[i].0.value in Comprehension(items).value
    ensures Comprehension(items).value[items[i].0.value] == items[i].1
    decreases |items|
  {
    var last := |items| - 1;
    var pre := items[..last];
    if i < last {
      assert items[i] == pre[i];
      assert LastWithKey(pre, i) by {
        forall j | i < j < |pre| ensures pre[j].0 != pre[i].0 {
          assert pre[j] == items[j];
        }
      }
      ComprehensionLastWins(pre, i);
    }
  }

  /** `docs_by_id(directory)`: a dictionary built in listing order from
      each joined path's id to that file's contents.
      `DocsByIdFails`, `DocsByIdKeys` and `DocsByIdLastWins` state what it
      computes. */
  function DocsById(directory: string, listing: seq<Entry>): Result<map<string, string>, DocIdError>
  {
    Comprehension(Keyed(directory, listing))
  }

  /** Loading raises exactly when some listed path holds no digit, and the
      error names the first such path in listing order. */
  lemma DocsByIdFails(directory: string, listing: seq<Entry>)
    ensures var r := DocsById(directory, listing);
      && (r.Failure? <==> exists i | 0 <= i < |listing| :: IdAt(directory, listing, i).Failure?)
      && (r.Failure? ==>
            exists i | 0 <= i < |listing| ::
              && r.error == NoDigit(PathAt(directory, listing, i))
              && IdAt(directory, listing, i).Failure?
              && forall j | 0 <= j < i :: IdAt(directory, listing, j).Success?)
  {
    var items := Keyed(directory, listing);
    var r := Comprehension(items);
    ComprehensionFails(items);
    if r.Failure? {
      var i :| 0 <= i < |items| && items[i].0 == Failure(r.error)
               && forall j | 0 <= j < i :: items[j].0.Success?;
      assert IdAt(directory, listing, i) == Failure(r.error);
    }
  }

  /** On success the keys are exactly the ids of the listed paths. */
  lemma DocsByIdKeys(directory: string, listing: seq<Entry>)
    ensures var r := DocsById(directory, listing);
      r.Success? ==>
        forall k :: k in r.value <==> exists i | 0 <= i < |listing| :: IdAt(directory, listing, i) == Success(k)
  {
    var items := Keyed(directory, listing);
    var r := Comprehension(items);
    ComprehensionKeys(items);
    if r.Success? {
      forall k | k in r.value
        ensures exists i | 0 <= i < |listing| :: IdAt(directory, listing, i) == Success(k)
      {
        var i :| 0 <= i < |items| && items[i].0 == Success(k);
        assert IdAt(directory, listing, i) == Success(k);
      }
      forall i | 0 <= i < |listing| && IdAt(directory, listing, i).Success?
        ensures IdAt(directory, listing, i).value in r.value
      {
        assert items[i].0 == Success(IdAt(directory, listing, i).value);
      }
    }
  }

  /** On success each id maps to the contents of the LAST listed file
      carrying it: a later file with the same id overwrites an earlier one. */
  lemma DocsByIdLastWins(directory: string, listing: seq<Entry>)
    ensures var r := DocsById(directory, listing);
      r.Success? ==>
        forall i | 0 <= i < |listing| && LastWithId(directory, listing, i) ::
          && IdAt(directory, listing, i).Success?
          && IdAt(directory, listing, i).value in r.value
          && r.value[IdAt(directory, listing, i).value] == listing[i].contents
  {
    var items := Keyed(directory, listing);
    var r := Comprehension(items);
    forall i | 0 <= i < |listing| && LastWithId(directory, listing, i) && r.Success?
      ensures IdAt(directory, listing, i).Success?
      ensures IdAt(directory, listing, i).value in r.value
      ensures r.value[IdAt(directory, listing, i).value] == listing[i].contents
    {
      ComprehensionLastWins(items, i);
    }
  }

  /** `tokens_by_doc_id(directory)`: the same keys as `docs_by_id`, each
      mapped to the tokenizer's output for that key's document. */
  function TokensByDocId(directory: string, listing: seq<Entry>, tokens: string -> seq<string>)
    : (r: Result<map<string, seq<string>>, DocIdError>)
    ensures r.Failure? <==> DocsById(directory, listing).Failure?
    ensures r.Failure? ==> r.error == DocsById(directory, listing).error
    ensures r.Success? ==> r.value.Keys == DocsById(directory, listing).value.Keys
    ensures r.Success? ==>
              forall k | k in r.value :: r.value[k] == tokens(DocsById(directory, listing).value[k])
  {
    match DocsById(directory, listing)
    case Failure(e) => Failure(e)
    case Success(docs) => Success(map k | k in docs :: tokens(docs[k]))
  }

  /** `tokens_by_doc_id` in terms of the listing: when loading succeeds,
      each id maps to the tokens of the last listed file carrying it. */
  lemma TokensOfLastEntry(directory: string, listing: seq<Entry>, tokens: string -> seq<string>)
    ensures var r := TokensByDocId(directory, listing, tokens);
      r.Success? ==>
        forall i | 0 <= i < |listing| && LastWithId(directory, listing, i) ::
          && IdAt(directory, listing, i).Success?
          && IdAt(directory, listing, i).value in r.value
          && r.value[IdAt(directory, listing, i).value] == tokens(listing[i].contents)
  {
    DocsByIdLastWins(directory, listing);
  }

  /** Three files `doc_7.txt`, `doc_12.txt`, `doc_3.txt` in the directory
      `corpus` load as the keys "7", "12" and "3", each mapped to its
      file's exact contents. */
  lemma ThreeFileCorpus()
    ensures DocsById("corpus", [Entry("doc_7.txt", "seven"), Entry("doc_12.txt", "twelve"), Entry("doc_3.txt", "three")])
            == Success(map["7" := "seven", "12" := "twelve", "3" := "three"])
  {
    var listing := [Entry("doc_7.txt", "seven"), Entry("doc_12.txt", "twelve"), Entry("doc_3.txt", "three")];
    ThreeFileItems(listing);
    ComprehensionOfThree(Keyed("corpus", listing));
  }

  lemma ThreeFileItems(listing: seq<Entry>)
    requires listing == [Entry("doc_7.txt", "seven"), Entry("doc_12.txt", "twelve"), Entry("doc_3.txt", "three")]
    ensures Keyed("corpus", listing)[0] == (Success("7"), "seven")
    ensures Keyed("corpus", listing)[1] == (Success("12"), "twelve")
    ensures Keyed("corpus", listing)[2] == (Success("3"), "three")
  {
    assert listing[0].name == "doc_7.txt" && listing[1].name == "doc_12.txt" && listing[2].name == "doc_3.txt";
    assert IsFirstRun("doc_7.txt", 4, 5) && "doc_7.txt"[4..5] == "7";
    assert IsFirstRun("doc_12.txt", 4, 6) && "doc_12.txt"[4..6] == "12";
    assert IsFirstRun("doc_3.txt", 4, 5) && "doc_3.txt"[4..5] == "3";
    CorpusItem(listing, 0, 4, 5, "7");
    CorpusItem(listing, 1, 4, 6, "12");
    CorpusItem(listing, 2, 4, 5, "3");
  }

  /** The item `Keyed` makes of entry `i` of a listing of the directory
      `corpus`, given the span of the id in the entry's name. */
  lemma CorpusItem(listing: seq<Entry>, i: int, a: int, b: int, id: string)
    requires 0 <= i < |listing|
    requires IsFirstRun(listing[i].name, a, b) && listing[i].name[a..b] == id
    requires listing[i].name[0] != '/'
    ensures Keyed("corpus", listing)[i] == (Success(id), listing[i].contents)
  {
    var name := listing[i].name;
    assert !HasDigit("corpus") by {
      forall k | 0 <= k < 6 ensures !IsDigit("corpus"[k]) { }
    }
    assert HasDigit(name) by { assert IsDigit(name[a]); }
    DigitFreeDirectoryKeepsId("corpus", name);
    DocIdIsFirstRun(name, a, b);
  }

  lemma ComprehensionOfThree(items: seq<(Result<string, DocIdError>, string)>)
    requires |items| == 3
    requires items[0] == (Success("7"), "seven")
    requires items[1] == (Success("12"), "twelve")
    requires items[2] == (Success("3"), "three")
    ensures Comprehension(items) == Success(map["7" := "seven", "12" := "twelve", "3" := "three"])
  {
    assert items[..1][..0] == [];
    assert Comprehension(items[..1]) == Success(map["7" := "seven"]);
    assert items[..2][..1] == items[..1];
    assert Comprehension(items[..2]) == Success(map["7" := "seven", "12" := "twelve"]);
    assert items[..|items| - 1] == items[..2];
  }

  /** Two files with the same id: the one listed later wins. */
  lemma DuplicateIdOverwrites()
    ensures DocsById("corpus", [Entry("a_5.txt", "old"), Entry("b_5.txt", "new")]) == Success(map["5" := "new"])
  {
    var listing := [Entry("a_5.txt", "old"), Entry("b_5.txt", "new")];
    assert listing[0].name == "a_5.txt" && listing[1].name == "b_5.txt";
    assert IsFirstRun("a_5.txt", 2, 3) && "a_5.txt"[2..3] == "5";
    assert IsFirstRun("b_5.txt", 2, 3) && "b_5.txt"[2..3] == "5";
    CorpusItem(listing, 0, 2, 3, "5");
    CorpusItem(listing, 1, 2, 3, "5");
    ComprehensionOfTwo(Keyed("corpus", listing));
  }

  lemma ComprehensionOfTwo(items: seq<(Result<string, DocIdError>, string)>)
    requires |items| == 2
    requires items[0] == (Success("5"), "old")
    requires items[1] == (Success("5"), "new")
    ensures Comprehension(items) == Success(map["5" := "new"])
  {
    assert items[..1][..0] == [];
    assert Comprehension(items[..1]) == Success(map["5" := "old"]);
    assert items[..|items| - 1] == items[..1];
    assert map["5" := "old"]["5" := "new"] == map["5" := "new"];
  }
}
