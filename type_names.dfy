/**
 * Return types as the synthesizer sees them: the name of the erased return
 * class (`Method.getReturnType()`), the classification predicates over it,
 * and the extraction of a list's element class from the text of the generic
 * return type (`Method.getGenericReturnType().getTypeName()`).
 */
module TypeNames {
  import opened Values

  const ListClass := "java.util.List"
  const StringClass := "java.lang.String"

  /** The eight primitive types. */
  datatype PrimKind = ByteK | CharK | ShortK | IntK | LongK | FloatK | DoubleK | BooleanK

  /**
   * A return class, compared by identity as `Class` objects are: `void`, a
   * primitive type, the wrapper class of a primitive type, or any other
   * class or interface, by its fully qualified name.
   */
  datatype JClass = VoidClass | PrimClass(kind: PrimKind) | BoxClass(kind: PrimKind) | RefClass(name: string)

  const StringType := RefClass(StringClass)
  const ListType := RefClass(ListClass)

  /** A primitive type or its wrapper, of one of the given kinds. */
  predicate OfKind(c: JClass, kinds: set<PrimKind>) {
    (c.PrimClass? || c.BoxClass?) && c.kind in kinds
  }

  /** Return types that come back through an `Integer`: byte, char, short, int and their boxes. */
  predicate IsIreturnType(c: JClass) { OfKind(c, {ByteK, CharK, ShortK, IntK}) }

  predicate IsJreturnType(c: JClass) { OfKind(c, {LongK}) }

  predicate IsDreturnType(c: JClass) { OfKind(c, {FloatK, DoubleK}) }

  predicate IsZreturnType(c: JClass) { OfKind(c, {BooleanK}) }

  /** The eight wrapper classes. */
  predicate IsBoxType(c: JClass) { c.BoxClass? }

  predicate IsByteType(c: JClass) { OfKind(c, {ByteK}) }

  predicate IsCharType(c: JClass) { OfKind(c, {CharK}) }

  predicate IsShortType(c: JClass) { OfKind(c, {ShortK}) }

  predicate IsFloatType(c: JClass) { OfKind(c, {FloatK}) }

  /** `String.indexOf(char)`: the first index of `ch` in `s`, or -1. */
  function IndexOf(s: string, ch: char): (r: int)
    ensures -1 <= r < |s|
    ensures r == -1 <==> ch !in s
    ensures r >= 0 ==> s[r] == ch && ch !in s[..r]
  {
    if s == [] then -1
    else if s[0] == ch then 0
    else
      var rest := IndexOf(s[1..], ch);
      assert s[1..] == s[..|s|][1..];
      if rest == -1 then -1
      else
        assert s[..rest + 1] == [s[0]] + s[1..][..rest];
        rest + 1
  }

  /**
   * `getSingleTypeParameterClass` up to `Class.forName`: the text strictly
   * between the first `<` and the first `>`, or none if either is missing.
   * A `>` ahead of every `<` makes `substring` throw.
   */
  function SingleTypeParameter(typeName: string): (r: Result<Option<string>>)
    ensures ('<' !in typeName || '>' !in typeName) <==> r == Ok(None)
    ensures r.Ok? && r.value.Some? ==>
      exists i, j :: 0 <= i < j < |typeName| && typeName[i] == '<' && typeName[j] == '>'
        && '<' !in typeName[..i] && '>' !in typeName[..j]
        && r.value.value == typeName[i + 1..j]
    ensures r.Err? <==> ('<' in typeName && '>' in typeName && IndexOf(typeName, '>') < IndexOf(typeName, '<'))
  {
    var lt := IndexOf(typeName, '<');
    var gt := IndexOf(typeName, '>');
    if lt == -1 || gt == -1 then Ok(None)
    else if gt < lt + 1 then Err(StringIndexOutOfBounds)
    else Ok(Some(typeName[lt + 1..gt]))
  }

  /** How a generic type name is written: `prefix<element>suffix`. */
  function GenericName(prefix: string, element: string, suffix: string): string {
    prefix + ['<'] + element + ['>'] + suffix
  }

  /**
   * Extraction inverts writing a parameterised name: for an erased prefix
   * and an element with no `>` (a nested `<` is allowed), the element comes back.
   */
  lemma {:induction false} SingleTypeParameterOfGenericName(prefix: string, element: string, suffix: string)
    requires '<' !in prefix && '>' !in prefix && '>' !in element
    ensures SingleTypeParameter(GenericName(prefix, element, suffix)) == Ok(Some(element))
  {
    var s := GenericName(prefix, element, suffix);
    var lt, gt := |prefix|, |prefix| + 1 + |element|;
    assert s[lt] == '<' && s[..lt] == prefix;
    assert s[gt] == '>' && s[..gt] == prefix + ['<'] + element;
    IndexOfFirst(s, '<', lt);
    IndexOfFirst(s, '>', gt);
    assert s[lt + 1..gt] == element;
  }

  /** `IndexOf` finds a position holding the character with no earlier occurrence. */
  lemma IndexOfFirst(s: string, ch: char, k: nat)
    requires k < |s| && s[k] == ch && ch !in s[..k]
    ensures IndexOf(s, ch) == k
  {
  }
}
