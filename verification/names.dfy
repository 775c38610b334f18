/** Naming of Go values (`getName`, priv.go:126-146) and the `strings.Join`
    of action segments, which together produce every string key the library
    stores: context names in the relation registry, scope names and action
    names in delegation tokens, action names in abstract resources. */
module Names {
  import opened Wrappers

  /** A Go value of static type `any`, reduced to what the library observes
      of it: `Nil` is the nil interface; otherwise `typeName` is what
      `reflect.TypeOf(v).Name()` gives (the empty string for `*T` and other
      unnamed types), `stringer` is the result of `String()` when the value
      implements `fmt.Stringer`, and `payload` stands for the value itself, so
      that two values are equal exactly when Go's interface comparison says so. */
  datatype Value =
    | Nil
    | Object(typeName: string, stringer: Option<string>, payload: string)

  /** A Go `string` value: its dynamic type is named `string`, and a string
      has no `String` method. */
  function StringValue(s: string): Value {
    Object("string", None, s)
  }

  predicate IsUpper(c: char) {
    'A' <= c <= 'Z'
  }

  /** ASCII lower-casing of one character: `c - ('A' - 'a')` on upper-case
      letters (priv.go:137), the identity elsewhere. */
  function LowerChar(c: char): (r: char)
    ensures !IsUpper(r)
    ensures IsUpper(c) ==> 'a' <= r <= 'z' && r as int - 'a' as int == c as int - 'A' as int
    ensures !IsUpper(c) ==> r == c
  {
    if IsUpper(c) then (c as int + ('a' as int - 'A' as int)) as char else c
  }

  /** What one character of a type name contributes to the snake_case name;
      `atStart` holds while nothing has been emitted yet. */
  function Piece(c: char, atStart: bool): string {
    if !IsUpper(c) then [c]
    else if atStart then [LowerChar(c)]
    else ['_', LowerChar(c)]
  }

  /** The snake_case form of a type name, read from left to right: every
      upper-case ASCII letter is lowered, and preceded by `_` unless it is the
      very first character; every other character is kept as it is. */
  function SnakeFrom(name: string, atStart: bool): string {
    if name == [] then [] else Piece(name[0], atStart) + SnakeFrom(name[1..], false)
  }

  function SnakeCase(name: string): string {
    SnakeFrom(name, true)
  }

  /** The name `getName` gives a value: the `String()` of a Stringer, else the
      snake_case of its type name. The nil value is named "" -- an assumption:
      see NameOfAsWritten. */
  function NameOf(v: Value): string {
    match v
    case Nil => ""
    case Object(_, Some(s), _) => s
    case Object(typeName, None, _) => SnakeCase(typeName)
  }

  /** `getName` as the source writes it, where a nil argument reaches
      `reflect.TypeOf(nil).Name()`, a method call on a nil `reflect.Type` that
      panics (priv.go:132); `None` stands for that panic. */
  function NameOfAsWritten(v: Value): (r: Option<string>)
    ensures r.None? <==> v.Nil?
    ensures r.Some? ==> r.value == NameOf(v)
  {
    match v
    case Nil => None
    case Object(_, Some(s), _) => Some(s)
    case Object(typeName, None, _) => Some(SnakeCase(typeName))
  }

  /** `getName` (priv.go:127-146): the Stringer probe, then the loop over the
      runes of the type name that builds the snake_case form. */
  method GetName(v: Value) returns (name: string)
    ensures name == NameOf(v)
  {
    match v
    case Nil =>
      name := "";
    case Object(_, Some(s), _) =>
      name := s;
    case Object(typeName, None, _) =>
      var result: string := [];
      for i := 0 to |typeName|
        invariant result == SnakeCase(typeName[..i])
      {
        SnakeAppend(typeName[..i], typeName[i], true);
        SnakeEmpty(typeName[..i], true);
        assert typeName[..i + 1] == typeName[..i] + [typeName[i]];
        var c := typeName[i];
        if 'A' <= c <= 'Z' {
          c := (c as int - ('A' as int - 'a' as int)) as char;
          if |result| > 0 {
            result := result + ['_'];
          }
        }
        result := result + [c];
      }
      assert typeName[..|typeName|] == typeName;
      name := result;
  }

  /** Appending one character to a type name appends exactly its piece; the
      piece is a leading one only when nothing came before. */
  lemma {:induction false} SnakeAppend(prefix: string, c: char, atStart: bool)
    ensures SnakeFrom(prefix + [c], atStart) == SnakeFrom(prefix, atStart) + Piece(c, atStart && prefix == [])
  {
    if prefix == [] {
      assert [c][1..] == [];
    } else {
      assert (prefix + [c])[0] == prefix[0];
      assert (prefix + [c])[1..] == prefix[1..] + [c];
      SnakeAppend(prefix[1..], c, false);
    }
  }

  /** Every character emits something, so the output is empty only for the
      empty name. */
  lemma SnakeEmpty(name: string, atStart: bool)
    ensures SnakeFrom(name, atStart) == [] <==> name == []
  {
  }

  /** No upper-case ASCII letter survives the conversion. */
  lemma {:induction false} SnakeHasNoUpper(name: string, atStart: bool)
    ensures forall i :: 0 <= i < |SnakeFrom(name, atStart)| ==> !IsUpper(SnakeFrom(name, atStart)[i])
  {
    if name != [] {
      SnakeHasNoUpper(name[1..], false);
      var p, rest := Piece(name[0], atStart), SnakeFrom(name[1..], false);
      assert SnakeFrom(name, atStart) == p + rest;
      forall i | 0 <= i < |p + rest| ensures !IsUpper((p + rest)[i]) {
        if i >= |p| { assert (p + rest)[i] == rest[i - |p|]; }
      }
    }
  }

  /** A name without upper-case ASCII letters is its own snake_case form. */
  lemma {:induction false} SnakeOfLower(name: string, atStart: bool)
    requires forall i :: 0 <= i < |name| ==> !IsUpper(name[i])
    ensures SnakeFrom(name, atStart) == name
  {
    if name != [] {
      SnakeOfLower(name[1..], false);
      assert name == [name[0]] + name[1..];
    }
  }

  /** Converting an already converted name changes nothing. */
  lemma SnakeIdempotent(name: string)
    ensures SnakeCase(SnakeCase(name)) == SnakeCase(name)
  {
    SnakeHasNoUpper(name, true);
    SnakeOfLower(SnakeCase(name), true);
  }

  /** Converting a concatenation converts each part; the second part starts
      the output only when the first is empty. */
  lemma {:induction false} SnakeConcat(a: string, b: string, atStart: bool)
    ensures SnakeFrom(a + b, atStart) == SnakeFrom(a, atStart) + SnakeFrom(b, atStart && a == [])
  {
    if a == [] {
      assert a + b == b;
    } else {
      assert (a + b)[0] == a[0];
      assert (a + b)[1..] == a[1..] + b;
      SnakeConcat(a[1..], b, false);
    }
  }

  /** One capitalised word: its capital lowered, and preceded by `_` unless it
      opens the name. */
  lemma Word(c: char, rest: string, atStart: bool)
    requires IsUpper(c)
    requires forall i :: 0 <= i < |rest| ==> !IsUpper(rest[i])
    ensures SnakeFrom([c] + rest, atStart) == (if atStart then [] else "_") + [LowerChar(c)] + rest
  {
    assert ([c] + rest)[1..] == rest;
    SnakeOfLower(rest, false);
  }

  /** Go's `string` type keeps its name: a string scope is named "string". */
  lemma StringName()
    ensures SnakeCase("string") == "string"
    ensures NameOf(StringValue("")) == "string"
  {
    var s := "string";
    assert forall i :: 0 <= i < |s| ==> 'a' <= s[i] <= 'z';
    SnakeOfLower(s, true);
  }

  /** The type `Group` is named "group". */
  lemma GroupName()
    ensures SnakeCase("Group") == "group"
  {
    var rest := "roup";
    assert forall i :: 0 <= i < |rest| ==> 'a' <= rest[i] <= 'z';
    assert "Group" == ['G'] + rest;
    Word('G', rest, true);
  }

  /** The type `GroupPost` is named "group_post". */
  lemma GroupPostName()
    ensures SnakeCase("GroupPost") == "group_post"
  {
    GroupName();
    var rest := "ost";
    assert forall i :: 0 <= i < |rest| ==> 'a' <= rest[i] <= 'z';
    assert "Post" == ['P'] + rest;
    Word('P', rest, false);
    assert LowerChar('P') == 'p';
    assert SnakeFrom("Post", false) == "_post";
    assert "GroupPost" == "Group" + "Post";
    SnakeConcat("Group", "Post", true);
    assert "group" + "_post" == "group_post";
  }

  /** `strings.Join(parts, sep)`: the parts with `sep` between neighbours. */
  function Join(parts: seq<string>, sep: string): string {
    if |parts| == 0 then ""
    else if |parts| == 1 then parts[0]
    else parts[0] + sep + Join(parts[1..], sep)
  }

  /** Action segments are joined with `_` before they are used as keys, so a
      parameterised action and the pre-joined single segment are one key, and
      no segments at all is the empty action. */
  lemma JoinedActions()
    ensures Join(["create", "admin"], "_") == Join(["create_admin"], "_") == "create_admin"
    ensures Join(["a", "b"], "_") == Join(["a_b"], "_")
    ensures Join([], "_") == ""
  {
  }
}
