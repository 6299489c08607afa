/** The two name maps between the fields of domain entities and the keys of the protocol,
    on ASCII names. */
module FieldNames {
  predicate IsSmall(c: char) {
    'a' <= c <= 'z'
  }

  predicate IsCapital(c: char) {
    'A' <= c <= 'Z'
  }

  function Raised(c: char): char
    requires IsSmall(c)
  {
    (c as int - 32) as char
  }

  function Lowered(c: char): char {
    if IsCapital(c) then (c as int + 32) as char else c
  }

  /** Every underscore before a small letter goes, and the letter becomes a capital. */
  function Humped(name: string): string {
    if |name| < 2 then name
    else if name[0] == '_' && IsSmall(name[1]) then [Raised(name[1])] + Humped(name[2..])
    else [name[0]] + Humped(name[1..])
  }

  /** Every capital gets an underscore before it and becomes small. */
  function Flattened(name: string): string {
    if name == "" then ""
    else (if IsCapital(name[0]) then ['_', Lowered(name[0])] else [name[0]]) + Flattened(name[1..])
  }

  function SnakeToCamel(name: string): string {
    if name == "e_stop" then "eStop"
    else if name == "vx" then "vx"
    else if name == "vy" then "vy"
    else if name == "allowed_deviation_xy" then "allowedDeviationXY"
    else Humped(name)
  }

  function CamelToSnake(name: string): string {
    if name == "eStop" then "e_stop"
    else if name == "vx" then "vx"
    else if name == "vy" then "vy"
    else if name == "allowedDeviationXY" then "allowed_deviation_xy"
    else Flattened(name)
  }

  predicate IsAscii(name: string) {
    forall c | c in name :: c as int < 128
  }

  predicate NoCapitals(name: string) {
    forall c | c in name :: !IsCapital(c)
  }

  lemma {:induction false} FlattenedHumps(name: string)
    requires NoCapitals(name)
    ensures Flattened(Humped(name)) == name
  {
    if |name| == 1 {
      assert name[1..] == "";
    } else if |name| >= 2 {
      if name[0] == '_' && IsSmall(name[1]) {
        assert Humped(name)[1..] == Humped(name[2..]);
        FlattenedHumps(name[2..]);
        assert name == ['_', name[1]] + name[2..];
      } else {
        assert Humped(name)[1..] == Humped(name[1..]);
        FlattenedHumps(name[1..]);
      }
    }
  }

  lemma {:induction false} FlatHasNoCapitals(name: string)
    ensures NoCapitals(Flattened(name))
  {
    if name != "" {
      FlatHasNoCapitals(name[1..]);
    }
  }

  lemma FlattenedNothing()
    ensures Flattened("") == ""
  {
  }

  lemma FlattenedNext(c: char, rest: string)
    ensures Flattened([c] + rest) == (if IsCapital(c) then ['_', Lowered(c)] else [c]) + Flattened(rest)
  {
    assert ([c] + rest)[1..] == rest;
  }

  lemma {:induction false} FlattenedParts(a: string, b: string)
    ensures Flattened(a + b) == Flattened(a) + Flattened(b)
  {
    hide Flattened;
    if a == "" {
      FlattenedNothing();
      assert a + b == b;
    } else {
      FlattenedParts(a[1..], b);
      FlattenedNext(a[0], a[1..]);
      FlattenedNext(a[0], a[1..] + b);
      assert a == [a[0]] + a[1..] && a + b == [a[0]] + (a[1..] + b);
    }
  }

  lemma {:induction false} FlattenedPlain(a: string)
    requires NoCapitals(a)
    ensures Flattened(a) == a
  {
    if a != "" {
      FlattenedPlain(a[1..]);
    }
  }

  /** The one ordinary name whose key is the same as that of a specially treated name. */
  const COLLIDING := "allowed_deviation_x_y"

  lemma FlattenedHump(word: string, hump: char, rest: string)
    requires NoCapitals(word) && IsCapital(hump)
    ensures Flattened(word + [hump] + rest) == word + ['_', Lowered(hump)] + Flattened(rest)
  {
    FlattenedParts(word + [hump], rest);
    FlattenedParts(word, [hump]);
    FlattenedPlain(word);
    assert [hump][1..] == "";
  }

  lemma CollidingKey()
    ensures Flattened("allowedDeviationXY") == COLLIDING
  {
    hide Flattened;
    FlattenedHump("allowed", 'D', "eviationXY");
    FlattenedHump("eviation", 'X', "Y");
    FlattenedHump("", 'Y', "");
    FlattenedPlain("");
    assert "allowedDeviationXY" == "allowed" + ['D'] + "eviationXY";
    assert "eviationXY" == "eviation" + ['X'] + "Y";
    assert "Y" == "" + ['Y'] + "";
  }

  lemma SpecialKeys()
    ensures Flattened("eStop") == "e_stop" && Flattened("vx") == "vx" && Flattened("vy") == "vy"
  {
    hide Flattened;
    FlattenedHump("e", 'S', "top");
    FlattenedPlain("top");
    FlattenedPlain("vx");
    FlattenedPlain("vy");
    assert "eStop" == "e" + ['S'] + "top";
  }

  lemma {:induction false} HumpedWord(word: string, c: char, rest: string)
    requires IsSmall(c) && '_' !in word
    ensures Humped(word + ['_', c] + rest) == word + [Raised(c)] + Humped(rest)
  {
    var name := word + ['_', c] + rest;
    if word == "" {
      assert name[2..] == rest;
    } else {
      HumpedWord(word[1..], c, rest);
      assert name[1..] == word[1..] + ['_', c] + rest;
      assert name[0] == word[0] && word[0] in word;
    }
  }

  lemma HumpedNothing()
    ensures Humped("") == ""
  {
  }

  lemma CollidingName()
    ensures Humped(COLLIDING) == "allowedDeviationXY"
  {
    hide Humped;
    HumpedWord("", 'y', "");
    HumpedNothing();
    HumpedWord("allowed", 'd', "eviation_x_y");
    HumpedWord("eviation", 'x', "_y");
    assert COLLIDING == "allowed" + ['_', 'd'] + "eviation_x_y";
    assert "eviation_x_y" == "eviation" + ['_', 'x'] + "_y";
    assert "_y" == "" + ['_', 'y'] + "";
  }

  /** Going to the protocol's name and back is the identity exactly on the names without
      capitals other than the colliding one. */
  lemma NamesRoundTripExactly(name: string)
    requires IsAscii(name)
    ensures CamelToSnake(SnakeToCamel(name)) == name <==> NoCapitals(name) && name != COLLIDING
  {
    hide Humped, Flattened;
    FlatHasNoCapitals(SnakeToCamel(name));
    CollidingKey();
    CollidingName();
    SpecialKeys();
    if NoCapitals(name) {
      FlattenedHumps(name);
    }
  }

  /** The one that does not come back. */
  lemma CollidingNameChanges()
    ensures CamelToSnake(SnakeToCamel(COLLIDING)) == "allowed_deviation_xy"
  {
    hide Humped, Flattened;
    CollidingName();
  }

  /** The specially treated names, both ways. */
  lemma SpecialNames()
    ensures SnakeToCamel("e_stop") == "eStop" && CamelToSnake("eStop") == "e_stop"
    ensures SnakeToCamel("vx") == "vx" && CamelToSnake("vx") == "vx"
    ensures SnakeToCamel("vy") == "vy" && CamelToSnake("vy") == "vy"
    ensures SnakeToCamel("allowed_deviation_xy") == "allowedDeviationXY" && CamelToSnake("allowedDeviationXY") == "allowed_deviation_xy"
  {
  }
}
