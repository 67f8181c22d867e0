/** Learned team conventions, keyed by lowercased (project, term) and persisted as a list. */
module Conventions {
  import opened Collections
  import opened Text

  const INSTANCE_DEFAULT := "_default"

  datatype Convention = Convention(project: string, term: string, resolutionKey: string, jqlHint: string)

  type Key = (string, string)
  type Book = Dict<Key, Convention>

  function KeyOf(project: string, term: string): Key {
    (Lower(project), Lower(term))
  }

  function Lookup(book: Book, project: string, term: string): Option<Convention> {
    match book.Get(KeyOf(project, term))
    case Some(c) => Some(c)
    case None => book.Get(KeyOf(INSTANCE_DEFAULT, term))
  }

  function Record(book: Book, c: Convention): Book {
    book.Put(KeyOf(c.project, c.term), c)
  }

  /** Every convention is filed under the normalised key of its own project and term. */
  ghost predicate Filed(book: Book) {
    && book.Valid()
    && (forall k :: k in book.vals ==> k == KeyOf(book.vals[k].project, book.vals[k].term))
  }

  /** The dict comprehension that rebuilds the book from a persisted list. */
  function Load(payload: seq<Convention>): (book: Book)
    ensures Filed(book)
  {
    if payload == [] then EmptyDict() else Record(Load(payload[..|payload| - 1]), payload[|payload| - 1])
  }

  class ConventionsStore {
    var items: Book
    /** The contents of the JSON file. */
    var file: seq<Convention>

    ghost predicate Valid()
      reads this
    {
      Filed(items)
    }

    constructor (file: seq<Convention>)
      ensures Valid() && items == Load(file) && this.file == file
    {
      this.file := file;
      items := Load(file);
    }

    method Persist()
      requires Valid()
      modifies this`file
      ensures file == items.Items()
    {
      file := items.Items();
    }

    method Get(project: string, term: string) returns (r: Option<Convention>)
      ensures r == Lookup(items, project, term)
    {
      var exact := items.Get(KeyOf(project, term));
      if exact.Some? {
        return exact;
      }
      return items.Get(KeyOf(INSTANCE_DEFAULT, term));
    }

    method Set(c: Convention)
      requires Valid()
      modifies this
      ensures Valid() && items == Record(old(items), c)
      ensures file == items.Items()
    {
      items := items.Put(KeyOf(c.project, c.term), c);
      Persist();
    }

    method ListAll() returns (all: seq<Convention>)
      requires Valid()
      ensures all == items.Items()
    {
      all := items.Items();
    }

    method Delete(project: string, term: string) returns (removed: bool)
      requires Valid()
      modifies this
      ensures Valid() && items == old(items).Remove(KeyOf(project, term))
      ensures removed == (KeyOf(project, term) in old(items).vals)
      ensures file == if removed then items.Items() else old(file)
    {
      var key := KeyOf(project, term);
      removed := key in items.vals;
      RemoveKeyProperties(items.keys, key);
      if removed {
        items := items.Remove(key);
        Persist();
      } else {
        RemoveAbsent(items.keys, key);
        assert items.vals - {key} == items.vals;
      }
    }
  }

  lemma {:induction false} RemoveAbsent(keys: seq<Key>, key: Key)
    requires key !in keys
    ensures RemoveKey(keys, key) == keys
  {
    if keys != [] {
      RemoveAbsent(keys[1..], key);
    }
  }

  // ----- Runs of the store

  datatype Edit = SetEdit(convention: Convention) | DeleteEdit(project: string, term: string)

  function EditKey(e: Edit): Key {
    match e
    case SetEdit(c) => KeyOf(c.project, c.term)
    case DeleteEdit(p, t) => KeyOf(p, t)
  }

  /** The book after a sequence of sets and deletes on a book loaded from payload. */
  function Edited(payload: seq<Convention>, edits: seq<Edit>): Book {
    if edits == [] then Load(payload)
    else
      var book := Edited(payload, edits[..|edits| - 1]);
      match edits[|edits| - 1]
      case SetEdit(c) => Record(book, c)
      case DeleteEdit(p, t) => book.Remove(KeyOf(p, t))
  }

  /** Every run keeps each convention under its own normalised key. */
  lemma {:induction false} EditsKeepFiled(payload: seq<Convention>, edits: seq<Edit>)
    ensures Filed(Edited(payload, edits))
  {
    if edits != [] {
      EditsKeepFiled(payload, edits[..|edits| - 1]);
    }
  }

  lemma LoadNext(payload: seq<Convention>, c: Convention)
    ensures Load(payload + [c]) == Record(Load(payload), c)
  {
    assert (payload + [c])[..|payload|] == payload;
  }

  /** The first n entries of book, in order. */
  ghost predicate Prefix(loaded: Book, book: Book, n: nat)
    requires book.Valid() && n <= |book.keys|
  {
    && loaded.Valid() && loaded.keys == book.keys[..n]
    && (forall i :: 0 <= i < n ==> loaded.vals[book.keys[i]] == book.vals[book.keys[i]])
  }

  lemma PrefixGrows(loaded: Book, book: Book, n: nat)
    requires book.Valid() && n < |book.keys| && Prefix(loaded, book, n)
    ensures Prefix(loaded.Put(book.keys[n], book.vals[book.keys[n]]), book, n + 1)
  {
    var key := book.keys[n];
    assert key !in book.keys[..n];
    assert book.keys[..n + 1] == book.keys[..n] + [key];
    assert loaded.Put(key, book.vals[key]).Valid();
  }

  /** Loading the first n persisted conventions rebuilds the first n entries of the book. */
  lemma {:induction false} LoadPrefix(book: Book, n: nat)
    requires Filed(book) && n <= |book.keys|
    ensures Prefix(Load(book.Items()[..n]), book, n)
  {
    hide Load, KeyOf, Prefix;
    var items := book.Items();
    if n == 0 {
      assert items[..0] == [];
      LoadNothing(book);
    } else {
      LoadPrefix(book, n - 1);
      var c := book.vals[book.keys[n - 1]];
      assert items[..n] == items[..n - 1] + [c];
      LoadNext(items[..n - 1], c);
      PrefixGrows(Load(items[..n - 1]), book, n - 1);
    }
  }

  lemma LoadNothing(book: Book)
    requires book.Valid()
    ensures Prefix(Load([]), book, 0)
  {
    assert book.keys[..0] == [];
  }

  /** Writing the book to disk and loading it again gives the same book, order included. */
  lemma {:induction false} PersistLoadRoundTrip(book: Book)
    requires Filed(book)
    ensures Load(book.Items()) == book
  {
    hide KeyOf;
    var loaded := Load(book.Items());
    LoadPrefix(book, |book.keys|);
    assert book.Items()[..|book.keys|] == book.Items();
    assert book.keys[..|book.keys|] == book.keys;
    DictEquality(loaded, book);
  }

  /** After any run, a restart from the persisted list answers every lookup as before. */
  lemma {:induction false} RestartKeepsLookups(payload: seq<Convention>, edits: seq<Edit>, project: string,
                                               term: string)
    ensures var book := Edited(payload, edits);
      Filed(book) && Lookup(Load(book.Items()), project, term) == Lookup(book, project, term)
  {
    EditsKeepFiled(payload, edits);
    PersistLoadRoundTrip(Edited(payload, edits));
  }

  /** The last edit in edits that touched key. */
  function LastEdit(edits: seq<Edit>, key: Key): Option<Edit> {
    if edits == [] then None
    else if EditKey(edits[|edits| - 1]) == key then Some(edits[|edits| - 1])
    else LastEdit(edits[..|edits| - 1], key)
  }

  /** An exact lookup returns the last convention set under the key, unless it was deleted since. */
  lemma {:induction false} LastEditWins(payload: seq<Convention>, edits: seq<Edit>, key: Key)
    ensures Edited(payload, edits).Get(key) ==
      match LastEdit(edits, key)
      case None => Load(payload).Get(key)
      case Some(SetEdit(c)) => Some(c)
      case Some(DeleteEdit(_, _)) => None
  {
    if edits != [] {
      EditsKeepFiled(payload, edits[..|edits| - 1]);
      LastEditWins(payload, edits[..|edits| - 1], key);
    }
  }

  // ----- Lookups in terms of names

  /** Equal apart from the case of letters. */
  predicate SameName(a: string, b: string) {
    Lower(a) == Lower(b)
  }

  /** The last convention of the list about the term in the project. */
  function LastLoaded(payload: seq<Convention>, project: string, term: string): Option<Convention> {
    if payload == [] then None
    else
      var c := payload[|payload| - 1];
      if SameName(c.project, project) && SameName(c.term, term) then Some(c)
      else LastLoaded(payload[..|payload| - 1], project, term)
  }

  /** What the last edit about the term in the project left, or else the list. */
  function LastSaid(payload: seq<Convention>, edits: seq<Edit>, project: string, term: string): Option<Convention> {
    if edits == [] then LastLoaded(payload, project, term)
    else
      match edits[|edits| - 1]
      case SetEdit(c) =>
        if SameName(c.project, project) && SameName(c.term, term) then Some(c)
        else LastSaid(payload, edits[..|edits| - 1], project, term)
      case DeleteEdit(p, t) =>
        if SameName(p, project) && SameName(t, term) then None
        else LastSaid(payload, edits[..|edits| - 1], project, term)
  }

  lemma {:induction false} ExactLookup(payload: seq<Convention>, edits: seq<Edit>, project: string, term: string)
    ensures Edited(payload, edits).Get(KeyOf(project, term)) == LastSaid(payload, edits, project, term)
  {
    if edits != [] {
      ExactLookup(payload, edits[..|edits| - 1], project, term);
    } else if payload != [] {
      assert Edited(payload[..|payload| - 1], []) == Load(payload[..|payload| - 1]);
      ExactLookup(payload[..|payload| - 1], [], project, term);
    }
  }

  /**
   After any edits a lookup gives what was last said about the term in the project, and only if
   that is nothing, what was last said about it for the whole instance; the case of letters does
   not matter.
   */
  lemma {:induction false} LookupPrefersProject(payload: seq<Convention>, edits: seq<Edit>, project: string,
                                                term: string)
    ensures Lookup(Edited(payload, edits), project, term) ==
      if LastSaid(payload, edits, project, term).Some? then LastSaid(payload, edits, project, term)
      else LastSaid(payload, edits, "_default", term)
  {
    hide Edited, KeyOf;
    ExactLookup(payload, edits, project, term);
    ExactLookup(payload, edits, "_default", term);
  }

  /** The keys of the list. */
  function KeysIn(payload: seq<Convention>): seq<Key> {
    seq(|payload|, i requires 0 <= i < |payload| => (Lower(payload[i].project), Lower(payload[i].term)))
  }

  /** The book lists the keys in the order in which they first occur. */
  lemma {:induction false} LoadedInOrder(payload: seq<Convention>)
    ensures Load(payload).keys == Dedup(KeysIn(payload))
  {
    if payload != [] {
      var init := payload[..|payload| - 1];
      LoadedInOrder(init);
      assert KeysIn(payload)[..|payload| - 1] == KeysIn(init);
    }
  }
}
