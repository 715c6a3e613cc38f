/** example/graph/resolver.go: the example server's resolver state and its
    find-or-create step for authors. */
module Resolver {
  import opened Json
  import opened Text

  /** A `model.Author`, shared by pointer. */
  class Author {
    const id: string
    const name: string

    constructor (id: string, name: string)
      ensures this.id == id && this.name == name
    {
      this.id := id;
      this.name := name;
    }
  }

  /** A `model.Book`; its fields are not used here. */
  class Book {
  }

  /** The index of the first name equal to `name`, if any. */
  function FirstNamed(names: seq<string>, name: string): (r: Option<nat>)
    ensures r.None? <==> name !in names
    ensures r.Some? ==> r.value < |names| && names[r.value] == name
                        && forall j :: 0 <= j < r.value ==> names[j] != name
    decreases |names|
  {
    if |names| == 0 then None
    else if names[0] == name then Some(0)
    else
      match FirstNamed(names[1..], name)
      case None => None
      case Some(i) => Some(i + 1)
  }

  /** What follows a one-element head. */
  lemma AfterHead<T>(x: T, s: seq<T>)
    ensures |[x] + s| == |s| + 1 && ([x] + s)[..1] == [x] && ([x] + s)[1..] == s
    ensures |s| >= 1 ==> ([x] + s)[1] == s[0] && ([x] + s)[2..] == s[1..]
  {
  }

  /** The ID a new author gets: `fmt.Sprintf("a%d", nextID)`. */
  function NewAuthorId(nextID: int): (id: string)
    ensures HasPrefix(id, "a") && |id| >= 2
    ensures nextID >= 0 ==> IsDigits(id[1..]) && DigitsValue(id[1..]) == nextID
    ensures nextID < 0 ==> |id| >= 3 && id[1] == '-' && IsDigits(id[2..]) && DigitsValue(id[2..]) == -nextID
  {
    var digits := IntToString(nextID);
    IntToStringDigits(nextID);
    AfterHead('a', digits);
    "a" + digits
  }

  /** Appending a name that was missing makes it the first match, at the end. */
  lemma {:induction false} AppendedIsFirst(names: seq<string>, name: string)
    requires name !in names
    ensures FirstNamed(names + [name], name) == Some(|names|)
    decreases |names|
  {
    if |names| > 0 {
      assert (names + [name])[1..] == names[1..] + [name];
      AppendedIsFirst(names[1..], name);
    }
  }

  /** A name that is present keeps its first match when more names are appended. */
  lemma {:induction false} FirstNamedStable(names: seq<string>, more: seq<string>, name: string)
    requires name in names
    ensures FirstNamed(names + more, name) == FirstNamed(names, name)
    decreases |names|
  {
    if names[0] != name {
      assert (names + more)[1..] == names[1..] + more;
      FirstNamedStable(names[1..], more, name);
    }
  }

  class Resolver {
    var books: seq<Book>
    var authors: seq<Author>
    var nextID: int
    const storePath: string

    /** The authors' names, in list order. */
    function Names(): (r: seq<string>)
      reads this
      ensures |r| == |authors|
      ensures forall i :: 0 <= i < |authors| ==> r[i] == authors[i].name
    {
      seq(|authors|, i reads this requires 0 <= i < |authors| => authors[i].name)
    }

    /** `NewResolver` before `load` runs: ID counter 1, no books, no authors. */
    constructor NewResolver()
      ensures storePath == "store.json" && nextID == 1 && books == [] && authors == []
    {
      storePath := "store.json";
      nextID := 1;
      books := [];
      authors := [];
    }

    /** `getOrCreateAuthor`: the first author with that name, or a new one
        appended at the end. The counter is not advanced. */
    method GetOrCreateAuthor(name: string) returns (a: Author)
      modifies this
      ensures nextID == old(nextID) && books == old(books)
      ensures var found := FirstNamed(old(Names()), name);
        if found.Some? then
          a == old(authors)[found.value] && authors == old(authors)
        else
          fresh(a) && a.name == name && a.id == NewAuthorId(old(nextID)) && authors == old(authors) + [a]
      ensures |old(authors)| <= |authors| <= |old(authors)| + 1
      ensures authors[..|old(authors)|] == old(authors)
      ensures a in authors && a.name == name
      ensures forall i :: 0 <= i < |old(authors)| ==> authors[i].id == old(authors[i].id) && authors[i].name == old(authors[i].name)
      ensures FirstNamed(Names(), name).Some? && authors[FirstNamed(Names(), name).value] == a
    {
      var found := FindAuthor(name);
      if found.Some? {
        return authors[found.value];
      }
      ghost var names := Names();
      a := new Author(NewAuthorId(nextID), name);
      authors := authors + [a];
      assert Names() == names + [name];
      AppendedIsFirst(names, name);
    }

    /** The search loop of `getOrCreateAuthor`: the position of the first
        author with that name, if any. */
    method FindAuthor(name: string) returns (found: Option<nat>)
      ensures found == FirstNamed(Names(), name)
      ensures found.Some? ==> found.value < |authors| && authors[found.value].name == name
    {
      ghost var names := Names();
      var i := 0;
      while i < |authors|
        invariant 0 <= i <= |authors|
        invariant forall j :: 0 <= j < i ==> names[j] != name
      {
        if authors[i].name == name {
          assert FirstNamed(names, name) == Some(i);
          return Some(i);
        }
        i := i + 1;
      }
      assert name !in names;
      return None;
    }
  }
}
