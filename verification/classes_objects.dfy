/**
 The `Dog` class of the object-oriented introduction and its `Doodle`
 subclass, as immutable values.

 A Python object becomes a datatype value: `Dog` instances are `PlainDog`
 values and `Doodle` instances are `Doodle` values. Both constructors carry
 the four attributes the parent `__init__` sets, under the same destructor
 names, so a function written once over `Dog` is inherited unchanged by
 `Doodle`, as Python's method lookup does. The attribute is spelled
 `is_eldtrich_horror` in the class, and the field keeps that spelling.
 */
module Dogs {

  datatype Option<+T> = None | Some(value: T)

  datatype Dog =
    | PlainDog(breed: string, age: int, color: string, name: string)
    | Doodle(breed: string, age: int, color: string, name: string, isEldtrichHorror: bool)
  {
    /** The part of a dog the parent constructor sets up: what `super().__init__`
        stores for a `Doodle`, and the whole of a plain `Dog`. */
    function AsDog(): Dog {
      PlainDog(breed, age, color, name)
    }
  }

  /** The name a dog gets when its constructor is called without one. */
  const DefaultName: string := "default name"

  /** The text `bark` appends to the dog's name. */
  const BarkSuffix: string := " is barking"

  /** The literal pieces of the `__str__` text, around the name and the breed. */
  const IntroPrefix: string := "My name is "
  const IntroMiddle: string := ", I am a "
  const IntroEnd: string := "."

  /** `Dog(breed, age, color, name="default name")`: every argument is stored as
      given, and an omitted name is the default one. */
  function NewDog(breed: string, age: int, color: string, name: string := DefaultName): (d: Dog)
    ensures d.PlainDog?
    ensures d.breed == breed && d.age == age && d.color == color && d.name == name
  {
    PlainDog(breed, age, color, name)
  }

  /** `Doodle(breed, age, color, name="default name", is_eldritch_horror=True)`:
      the first four arguments go to the parent constructor, the flag is stored
      beside them. */
  function NewDoodle(breed: string, age: int, color: string, name: string := DefaultName,
                     isEldritchHorror: bool := true): (d: Dog)
    ensures d.Doodle?
    ensures d.AsDog() == NewDog(breed, age, color, name)
    ensures d.isEldtrichHorror == isEldritchHorror
  {
    var parent := NewDog(breed, age, color, name);
    Doodle(parent.breed, parent.age, parent.color, parent.name, isEldritchHorror)
  }

  /** `bark()`. */
  function Bark(d: Dog): string {
    d.name + BarkSuffix
  }

  /** `__str__()`. */
  function ToString(d: Dog): string {
    IntroPrefix + d.name + IntroMiddle + d.breed + IntroEnd
  }

  /** Reads back the name of the dog that barked `s`, or `None` when `s` is not
      a bark. This is the inverse of `Bark` and is used only to state what
      `Bark` keeps of its dog. */
  function BarkSpeaker(s: string): Option<string> {
    if |s| >= |BarkSuffix| && s[|s| - |BarkSuffix|..] == BarkSuffix then
      Some(s[..|s| - |BarkSuffix|])
    else
      None
  }

  // Construction

  /** Omitting the name gives the default one, for a `Dog` and a `Doodle`
      alike; omitting the flag of a `Doodle` sets it. */
  lemma ConstructorDefaults(breed: string, age: int, color: string, name: string)
    ensures NewDog(breed, age, color).name == "default name"
    ensures NewDoodle(breed, age, color).name == "default name"
    ensures NewDoodle(breed, age, color, name).isEldtrichHorror
  {
  }

  /** Every dog is what its constructor builds from the dog's own attributes:
      the constructors lose nothing of their arguments and reach every value. */
  lemma ConstructorsRoundTrip(d: Dog)
    ensures d.PlainDog? ==> d == NewDog(d.breed, d.age, d.color, d.name)
    ensures d.Doodle? ==> d == NewDoodle(d.breed, d.age, d.color, d.name, d.isEldtrichHorror)
  {
  }

  // bark

  /** The bark of a dog is its name followed by " is barking". */
  lemma BarkSpelledOut(d: Dog)
    ensures Bark(d) == d.name + " is barking"
    ensures |Bark(d)| == |d.name| + 11
  {
  }

  /** The name can be read back from a bark. */
  lemma BarkSpeakerInvertsBark(d: Dog)
    ensures BarkSpeaker(Bark(d)) == Some(d.name)
  {
    var s := Bark(d);
    assert s[|s| - |BarkSuffix|..] == BarkSuffix;
    assert s[..|s| - |BarkSuffix|] == d.name;
  }

  /** Whatever `BarkSpeaker` reads back is a name that barks exactly `s`, and
      it reads back nothing only from a string no dog barks. */
  lemma BarkSpeakerSound(s: string, d: Dog)
    ensures BarkSpeaker(s) == Some(d.name) <==> Bark(d) == s
  {
    if Bark(d) == s {
      BarkSpeakerInvertsBark(d);
    }
    if BarkSpeaker(s) == Some(d.name) {
      assert s == s[..|s| - |BarkSuffix|] + s[|s| - |BarkSuffix|..];
    }
  }

  /** Two dogs bark the same text exactly when they have the same name: the
      bark reads the name and nothing else, and loses none of it. */
  lemma BarkDependsOnlyOnName(d1: Dog, d2: Dog)
    ensures Bark(d1) == Bark(d2) <==> d1.name == d2.name
  {
    if Bark(d1) == Bark(d2) {
      BarkSpeakerInvertsBark(d1);
      BarkSpeakerInvertsBark(d2);
    }
  }

  // __str__

  /** Where the name and the breed sit in the `__str__` text. */
  lemma ToStringLayout(d: Dog)
    ensures var s := ToString(d);
            && |s| == |d.name| + |d.breed| + 21
            && s[..11] == "My name is "
            && s[11..11 + |d.name|] == d.name
            && s[11 + |d.name|..20 + |d.name|] == ", I am a "
            && s[20 + |d.name|..20 + |d.name| + |d.breed|] == d.breed
            && s[|s| - 1] == '.'
  {
    var s := ToString(d);
    var n := |d.name|;
    var a := IntroPrefix + d.name;
    var b := a + IntroMiddle;
    var c := b + d.breed;
    assert s == c + IntroEnd;
    assert s[..|c|] == c;
    assert c[..|b|] == b;
    assert b[..|a|] == a;
    assert s[..11] == IntroPrefix;
    assert s[11..11 + n] == d.name;
    assert s[11 + n..20 + n] == IntroMiddle;
    assert s[20 + n..20 + n + |d.breed|] == d.breed;
  }

  /** `__str__` reads only the name and the breed. */
  lemma ToStringReadsNameAndBreed(d1: Dog, d2: Dog)
    requires d1.name == d2.name && d1.breed == d2.breed
    ensures ToString(d1) == ToString(d2)
  {
  }

  /** Among dogs whose names have the same length, the text identifies the
      name and the breed: equal texts mean equal names and breeds. */
  lemma ToStringInjectiveForEqualNameLengths(d1: Dog, d2: Dog)
    requires |d1.name| == |d2.name|
    ensures ToString(d1) == ToString(d2) <==> d1.name == d2.name && d1.breed == d2.breed
  {
    if ToString(d1) == ToString(d2) {
      ToStringLayout(d1);
      ToStringLayout(d2);
    }
  }

  /** Without equal name lengths that fails: a name that itself contains
      ", I am a " makes two different dogs describe themselves identically. */
  lemma ToStringNotInjective()
    ensures var a := NewDog("y, I am a z", 1, "white", "x");
            var b := NewDog("z", 1, "white", "x, I am a y");
            a.name != b.name && ToString(a) == ToString(b)
  {
  }

  // Inheritance

  /** A `Doodle` barks and describes itself exactly as the `Dog` its parent
      constructor built. */
  lemma DoodleInheritsMethods(breed: string, age: int, color: string, name: string, flag: bool)
    ensures Bark(NewDoodle(breed, age, color, name, flag)) == Bark(NewDog(breed, age, color, name))
    ensures ToString(NewDoodle(breed, age, color, name, flag)) == ToString(NewDog(breed, age, color, name))
  {
  }

  /** The two objects the class demonstration builds. */
  lemma DemonstrationObjects()
    ensures ToString(NewDog("Maltese", 16, "white", "Ellie")) == "My name is Ellie, I am a Maltese."
    ensures Bark(NewDoodle("Labradoodle", 16, "yellow", "callie")) == "callie is barking"
    ensures NewDoodle("Labradoodle", 16, "yellow", "callie").isEldtrichHorror
  {
  }
}
