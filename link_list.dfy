/** The list of image links kept in one feature attribute: links are joined by commas, a new
    link is the parent URL of the request followed by the stored file's name
    (ImageResource.getLink, appendLinkToAttribute). */
module LinkList {
  import opened Wrappers
  import opened Strings

  const Separator := ','

  /** The link to an uploaded file: the parent reference of the request URL, then the name. */
  function Link(parentRef: string, filename: string): (link: string)
    ensures StartsWith(link, parentRef) && EndsWith(link, filename)
    ensures |link| == |parentRef| + |filename|
  {
    parentRef + filename
  }

  /** The new attribute value after adding `link` to the current value (absent = null). */
  function AppendLink(value: Option<string>, link: string): (r: string)
    ensures EndsWith(r, link)
    ensures value.Some? ==> StartsWith(r, value.value)
    ensures value.None? || value.value == "" ==> r == link
    ensures value.Some? && value.value != "" ==> r == value.value + [Separator] + link
  {
    if value.None? || value.value == "" then link else value.value + [Separator] + link
  }

  /** Splits a stored value at every separator, keeping empty pieces. */
  function Split(s: string): (parts: seq<string>)
    ensures |parts| >= 1
  {
    if s == [] then [""]
    else
      var rest := Split(s[1..]);
      if s[0] == Separator then [""] + rest
      else [[s[0]] + rest[0]] + rest[1..]
  }

  /** The links an attribute value holds: none for an absent or empty value. */
  function Links(value: Option<string>): seq<string> {
    if value.None? || value.value == "" then [] else Split(value.value)
  }

  /** A value without separators is a single piece. */
  lemma {:induction false} SplitSingle(s: string)
    requires Separator !in s
    ensures Split(s) == [s]
  {
    if s != [] {
      SplitSingle(s[1..]);
      assert [s[0]] + s[1..] == s;
    }
  }

  /** Splitting `a,b` with a separator-free `b` gives the pieces of `a` followed by `b`. */
  lemma {:induction false} SplitAppend(a: string, b: string)
    requires Separator !in b
    ensures Split(a + [Separator] + b) == Split(a) + [b]
  {
    var s := a + [Separator] + b;
    if a == [] {
      assert s == [Separator] + b;
      assert s[1..] == b;
      SplitSingle(b);
    } else {
      assert s[1..] == a[1..] + [Separator] + b;
      SplitAppend(a[1..], b);
      var tail := Split(a[1..]);
      assert Split(s[1..]) == tail + [b];
      if a[0] != Separator {
        assert (tail + [b])[0] == tail[0];
        assert (tail + [b])[1..] == tail[1..] + [b];
      }
    }
  }

  /** Appending a non-empty, separator-free link adds exactly that link at the end of the
      list and keeps every earlier link in order. */
  lemma AppendAddsLink(value: Option<string>, link: string)
    requires link != "" && Separator !in link
    ensures Links(Some(AppendLink(value, link))) == Links(value) + [link]
  {
    if value.None? || value.value == "" {
      SplitSingle(link);
    } else {
      SplitAppend(value.value, link);
    }
  }

  /** The value after appending each of `links` in turn, as successive uploads do. */
  function AppendAll(value: Option<string>, links: seq<string>): Option<string>
    decreases |links|
  {
    if links == [] then value
    else Some(AppendLink(AppendAll(value, links[..|links| - 1]), links[|links| - 1]))
  }

  /** A non-empty sequence is its front followed by its last element. */
  lemma FrontAndLast<T>(s: seq<T>)
    requires s != []
    ensures s[..|s| - 1] + [s[|s| - 1]] == s
  {
  }

  /** A link the list can hold unambiguously: non-empty and without separators. */
  predicate Separable(link: string) {
    link != "" && Separator !in link
  }

  /** Successive appends of non-empty, separator-free links are all kept, in upload order. */
  lemma {:induction false} AppendAllKeepsOrder(value: Option<string>, links: seq<string>)
    requires forall l :: l in links ==> Separable(l)
    ensures Links(AppendAll(value, links)) == Links(value) + links
    decreases |links|
  {
    if links != [] {
      var init, last := links[..|links| - 1], links[|links| - 1];
      assert forall l :: l in init ==> l in links;
      AppendAllKeepsOrder(value, init);
      assert last in links;
      AppendAddsLink(AppendAll(value, init), last);
      FrontAndLast(links);
    }
  }
}
