/** The list discipline shared by the generated model classes: a list-valued field holds
    null or a ListWithAutoConstructFlag, getters install an empty list flagged
    "auto-constructed", setters store an unflagged copy, varargs with… methods append, and
    the marshallers write a list unless it is null or auto-constructed and empty.
    Also the parts of java.util.List that the model classes use: hashCode() and toString(). */
module AutoLists {

  import opened Wrappers
  import opened JavaLang

  /** A ListWithAutoConstructFlag: its elements in order, null elements included, and
      whether a getter created it. Java lists are compared element by element, so two
      lists that differ only in the flag are equal lists. */
  datatype AutoList<T> = AutoList(elems: seq<Option<T>>, autoConstruct: bool)

  /** The list a getter returns (and leaves in the field): the field's list, or a fresh
      empty list flagged auto-constructed when the field is null. */
  function Installed<T>(field: Option<AutoList<T>>): AutoList<T>
  {
    if field.Some? then field.value else AutoList([], true)
  }

  /** What a list setter (or collection with…) stores for its argument: null for null,
      otherwise a copy whose flag is clear. */
  function CopyOf<T>(arg: Option<seq<Option<T>>>): Option<AutoList<T>>
  {
    if arg.None? then None else Some(AutoList(arg.value, false))
  }

  /** What a varargs with… method leaves in the field: the list the getter returns, with the
      values added at its end. */
  function Appended<T>(field: Option<AutoList<T>>, values: seq<Option<T>>): AutoList<T>
  {
    var l := Installed(field);
    AutoList(l.elems + values, l.autoConstruct)
  }

  /** The marshallers' test: a list is written unless it is null, or auto-constructed and
      empty. */
  predicate Emitted<T>(field: Option<AutoList<T>>)
  {
    field.Some? && !(field.value.autoConstruct && field.value.elems == [])
  }

  /** The non-null elements of a list, in list order. */
  function NonNull<T>(elems: seq<Option<T>>): seq<T>
  {
    if elems == [] then []
    else
      var last := elems[|elems| - 1];
      NonNull(elems[..|elems| - 1]) + (if last.Some? then [last.value] else [])
  }

  /** Dropping nulls commutes with concatenation. */
  lemma {:induction false} NonNullAppend<T>(a: seq<Option<T>>, b: seq<Option<T>>)
    ensures NonNull(a + b) == NonNull(a) + NonNull(b)
  {
    if b == [] {
      assert a + b == a;
    } else {
      assert (a + b)[..|a + b| - 1] == a + b[..|b| - 1];
      NonNullAppend(a, b[..|b| - 1]);
    }
  }

  /** An element survives exactly when it occurs non-null in the list. */
  lemma {:induction false} NonNullMembers<T>(elems: seq<Option<T>>, x: T)
    ensures x in NonNull(elems) <==> Some(x) in elems
  {
    if elems != [] {
      var init := elems[..|elems| - 1];
      NonNullMembers(init, x);
      assert elems == init + [elems[|elems| - 1]];
    }
  }

  /** A list without nulls passes through unchanged. */
  lemma {:induction false} NonNullOfPresent<T>(elems: seq<Option<T>>)
    requires forall i :: 0 <= i < |elems| ==> elems[i].Some?
    ensures |NonNull(elems)| == |elems|
    ensures forall i :: 0 <= i < |elems| ==> NonNull(elems)[i] == elems[i].value
  {
    if elems != [] {
      NonNullOfPresent(elems[..|elems| - 1]);
    }
  }

  /** A getter installs a list at most once: a second call sees and returns the first
      call's list. */
  lemma InstalledIsStable<T>(field: Option<AutoList<T>>)
    ensures Installed(Some(Installed(field))) == Installed(field)
    ensures field.None? ==> Installed(field) == AutoList([], true)
  {
  }

  /** A varargs with… never drops what was there: the old elements stay in front, the
      values follow in order. */
  lemma AppendedKeepsPrefix<T>(field: Option<AutoList<T>>, values: seq<Option<T>>)
    ensures var r := Appended(field, values);
      |r.elems| == |Installed(field).elems| + |values|
      && r.elems[..|Installed(field).elems|] == Installed(field).elems
      && r.elems[|Installed(field).elems|..] == values
  {
  }

  /** The discipline's point: a list field that was only read is not written on the wire,
      a list explicitly set to empty is, and appending values to a read-only list makes it
      written. */
  lemma ReadOnlyDroppedExplicitEmptyKept<T>(values: seq<Option<T>>)
    ensures !Emitted(Some(Installed<T>(None)))
    ensures Emitted(CopyOf<T>(Some([])))
    ensures Emitted(Some(Appended<T>(None, values))) <==> values != []
  {
  }

  // ---------------------------------------------------------------------------
  // java.util.List.hashCode() and AbstractCollection.toString()

  /** The hash of each element, 0 for a null element. */
  function ElementHashes<T>(elems: seq<Option<T>>, hash: T -> Int32): (hs: seq<Int32>)
    ensures |hs| == |elems|
  {
    if elems == [] then []
    else
      var last := elems[|elems| - 1];
      ElementHashes(elems[..|elems| - 1], hash) + [if last.Some? then hash(last.value) else 0]
  }

  /** List.hashCode(): the 31-based accumulation from 1 over the element hashes. */
  function ListHash<T>(elems: seq<Option<T>>, hash: T -> Int32): Int32
  {
    HashFold(1, ElementHashes(elems, hash))
  }

  /** The text of one element, "null" for a null element. */
  function ElementText<T>(e: Option<T>, text: T -> string): string
  {
    if e.Some? then text(e.value) else "null"
  }

  /** The element texts separated by ", ". */
  function JoinTexts<T>(elems: seq<Option<T>>, text: T -> string): string
  {
    if elems == [] then ""
    else if |elems| == 1 then ElementText(elems[0], text)
    else JoinTexts(elems[..|elems| - 1], text) + ", " + ElementText(elems[|elems| - 1], text)
  }

  /** AbstractCollection.toString(): "[" then the element texts separated by ", ", then "]". */
  function ListText<T>(elems: seq<Option<T>>, text: T -> string): (s: string)
    ensures |s| >= 2 && s[0] == '[' && s[|s| - 1] == ']'
    ensures elems == [] ==> s == "[]"
  {
    "[" + JoinTexts(elems, text) + "]"
  }

  /** The texts the iterator loop of AbstractCollection.toString() appends after the
      first element: ", " and the element's text, for each element from front to back. */
  function TextsAfterFirst<T>(elems: seq<Option<T>>, text: T -> string): string
  {
    if elems == [] then "" else ", " + ElementText(elems[0], text) + TextsAfterFirst(elems[1..], text)
  }

  lemma {:induction false} TextsAfterFirstSnoc<T>(elems: seq<Option<T>>, e: Option<T>, text: T -> string)
    ensures TextsAfterFirst(elems + [e], text) == TextsAfterFirst(elems, text) + ", " + ElementText(e, text)
  {
    if elems != [] {
      assert (elems + [e])[1..] == elems[1..] + [e];
      TextsAfterFirstSnoc(elems[1..], e, text);
    }
  }

  lemma {:induction false} JoinTextsFromFront<T>(elems: seq<Option<T>>, text: T -> string)
    requires elems != []
    ensures JoinTexts(elems, text) == ElementText(elems[0], text) + TextsAfterFirst(elems[1..], text)
  {
    if |elems| > 1 {
      var init := elems[..|elems| - 1];
      JoinTextsFromFront(init, text);
      assert init[1..] + [elems[|elems| - 1]] == elems[1..];
      TextsAfterFirstSnoc(init[1..], elems[|elems| - 1], text);
    }
  }

  /** ListText agrees with the front-to-back loop of AbstractCollection.toString(): "[",
      the first element's text ("null" for null), then ", " and the text of each further
      element in list order, then "]". */
  lemma ListTextIteratesInOrder<T>(elems: seq<Option<T>>, text: T -> string)
    ensures elems == [] ==> ListText(elems, text) == "[]"
    ensures elems != [] ==>
      ListText(elems, text) == "[" + ElementText(elems[0], text) + TextsAfterFirst(elems[1..], text) + "]"
  {
    if elems != [] {
      JoinTextsFromFront(elems, text);
    }
  }

  /** The term a list field contributes to hashCode(): 0 for null, List.hashCode() otherwise. */
  function ListFieldHash<T>(field: Option<AutoList<T>>, hash: T -> Int32): Int32
  {
    if field.Some? then ListHash(field.value.elems, hash) else 0
  }

  /** The text toString() shows for a list field, None for null. */
  function ListFieldText<T>(field: Option<AutoList<T>>, text: T -> string): Option<string>
  {
    if field.Some? then Some(ListText(field.value.elems, text)) else None
  }
}
