/** Static helpers: repr of an arbitrary object, and the two nullToEmpty overloads. */
module BasicUtils {
  import opened JavaLang

  /** A non-null Java object as repr distinguishes it: a CharSequence (by its
      characters), a boxed Character, or any other object of type T.
      Character is a final class that does not implement CharSequence, so
      no object falls under two of these. */
  datatype JavaObject<T> = CharSequence(chars: string) | Character(c: char) | Other(obj: T)

  /** repr(o): "null" for a null reference; otherwise the string repr of a
      CharSequence, the char repr of a Character, and toString() for
      anything else. The string and char reprs and toString lie outside the
      core and are passed in. */
  function Repr<T>(o: Nullable<JavaObject<T>>, stringRepr: string -> string,
                   charRepr: char -> string, toString: T -> string): (r: string)
    ensures o == Null ==> r == "null"
    ensures o.NonNull? && o.value.CharSequence? ==> r == stringRepr(o.value.chars)
    ensures o.NonNull? && o.value.Character? ==> r == charRepr(o.value.c)
    ensures o.NonNull? && o.value.Other? ==> r == toString(o.value.obj)
  {
    if o.Null? then "null"
    else
      match o.value
      case CharSequence(chars) => stringRepr(chars)
      case Character(c) => charRepr(c)
      case Other(obj) => toString(obj)
  }

  /** The null test comes first: repr of null is "null" whatever the
      string repr, char repr and toString would give. */
  lemma {:induction false} ReprNullIgnoresDelegates<T>(
      s1: string -> string, c1: char -> string, t1: T -> string,
      s2: string -> string, c2: char -> string, t2: T -> string)
    ensures Repr(Null, s1, c1, t1) == Repr(Null, s2, c2, t2) == "null"
  {
  }

  /** A non-null object's repr is decided by the one delegate its kind
      selects: changing the other two delegates does not change it. */
  lemma {:induction false} ReprUsesOnlySelectedDelegate<T>(
      o: JavaObject<T>,
      s1: string -> string, c1: char -> string, t1: T -> string,
      s2: string -> string, c2: char -> string, t2: T -> string)
    requires o.CharSequence? ==> s1(o.chars) == s2(o.chars)
    requires o.Character? ==> c1(o.c) == c2(o.c)
    requires o.Other? ==> t1(o.obj) == t2(o.obj)
    ensures Repr(NonNull(o), s1, c1, t1) == Repr(NonNull(o), s2, c2, t2)
  {
  }

  /** nullToEmpty(List): an empty list in place of null, the list itself otherwise. */
  function NullToEmptyList<E>(list: Nullable<seq<E>>): (r: Nullable<seq<E>>)
    ensures r.NonNull?
    ensures list.NonNull? ==> r == list
    ensures list.Null? ==> r.value == []
  {
    if list.Null? then NonNull([]) else list
  }

  /** nullToEmpty(String): "" in place of null, the string itself otherwise. */
  function NullToEmptyString(s: Nullable<string>): (r: Nullable<string>)
    ensures r.NonNull?
    ensures s.NonNull? ==> r == s
    ensures s.Null? ==> r.value == ""
  {
    if s.Null? then NonNull("") else s
  }

  lemma NullToEmptyListIdempotent<E>(list: Nullable<seq<E>>)
    ensures NullToEmptyList(NullToEmptyList(list)) == NullToEmptyList(list)
  {
  }

  lemma NullToEmptyStringIdempotent(s: Nullable<string>)
    ensures NullToEmptyString(NullToEmptyString(s)) == NullToEmptyString(s)
  {
  }

  /** The list overload changes its argument only when it is null: the
      result equals the argument exactly when the argument is non-null. */
  lemma NullToEmptyListFixesExactlyNonNull<E>(list: Nullable<seq<E>>)
    ensures NullToEmptyList(list) == list <==> list.NonNull?
  {
  }

  lemma NullToEmptyStringFixesExactlyNonNull(s: Nullable<string>)
    ensures NullToEmptyString(s) == s <==> s.NonNull?
  {
  }
}
