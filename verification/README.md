# Calculator and Dog classes, modelled in Dafny

This project models the two self-contained pieces of logic in an introductory
Python course repository:

- the arithmetic module written to practise unit testing
  (`Week1/Unit-Testing/calculator.py`): `add`, `subtract`, `multiply` and
  `divide`, where `divide` raises `ValueError("Cannot divide by zero")` for a
  zero divisor; modelled in `calculator.dfy`, module `Calculator`;
- the `Dog` class and its `Doodle` subclass from the object-oriented
  introduction (`Week1/Python-Intro/classes-objects.py`): the constructors
  with their defaults, `bark()` and `__str__()`; modelled in
  `classes_objects.dfy`, module `Dogs`.

Python's exceptions become a `Result` value (`Success` or `Failure` holding a
`ValueError` with its message). Python objects become immutable datatype
values; the subclass is a second constructor of the same datatype carrying the
same four attributes plus its flag, so functions over `Dog` apply to a
`Doodle` unchanged, as inherited methods do. Python's keyword defaults become
Dafny default parameter values. Because the values are immutable, `bark` and
`__str__` cannot change any attribute; the lemmas state instead which
attributes each one reads.

Each operation is paired with something independent of its body: `Subtract`
with `Add` as its inverse, `Divide` with `Multiply`, `Bark` with the parser
`BarkSpeaker` that reads the name back, and `__str__` with a position-by-position
layout of its text.

## Model

| member | source | states |
|---|---|---|
| Calculator.Divide | Week1/Unit-Testing/calculator.py:13-16 | fails exactly when the divisor is zero, always with the ValueError "Cannot divide by zero"; otherwise succeeds with a quotient that times the divisor gives the dividend; needs no precondition because the zero test precedes the division |
| Calculator.DivideByZeroFails | Week1/Unit-Testing/calculator.py:14-15 | a zero divisor raises the ValueError "Cannot divide by zero" for every dividend, zero included |
| Calculator.DivideQuotientUnique | Week1/Unit-Testing/calculator.py:14-16 | with a non-zero divisor, the result is success with q exactly when q times the divisor equals the dividend |
| Calculator.DivideInvertsMultiply | Week1/Unit-Testing/calculator.py:10-16 | dividing a product by its non-zero factor gives back the other factor |
| Calculator.AddCommutative | Week1/Unit-Testing/calculator.py:4-5 | addition does not depend on operand order |
| Calculator.AddAssociative | Week1/Unit-Testing/calculator.py:4-5 | addition is associative (exact, as Python integers are) |
| Calculator.AddZeroIdentity | Week1/Unit-Testing/calculator.py:4-5 | adding zero on either side leaves a number unchanged |
| Calculator.SubtractInvertsAdd | Week1/Unit-Testing/calculator.py:4-8 | subtract undoes add and add undoes subtract |
| Calculator.SubtractAntisymmetric | Week1/Unit-Testing/calculator.py:7-8 | swapping the operands of subtract negates the result |
| Calculator.SubtractSelfIsZero | Week1/Unit-Testing/calculator.py:7-8 | a number minus itself is zero |
| Calculator.MultiplyCommutative | Week1/Unit-Testing/calculator.py:10-11 | multiplication does not depend on operand order |
| Calculator.MultiplyZero | Week1/Unit-Testing/calculator.py:10-11 | multiplying by zero on either side gives zero |
| Calculator.MultiplyOneIdentity | Week1/Unit-Testing/calculator.py:10-11 | multiplying by one on either side leaves a number unchanged |
| Calculator.ExampleCalls | Week1/Unit-Testing/calculator.py:4-16 | add(10, 5) is 15, subtract(10, 5) is 5, multiply(10, 5) is 50, divide(10, 5) is 2, divide(10, 0) fails with "Cannot divide by zero" |
| Dogs.NewDog | Week1/Python-Intro/classes-objects.py:13-17 | the constructor builds a plain Dog storing breed, age, color and name exactly as passed |
| Dogs.ConstructorDefaults | Week1/Python-Intro/classes-objects.py:13-43 | an omitted name is "default name" for a Dog and a Doodle; an omitted Doodle flag is True |
| Dogs.NewDoodle | Week1/Python-Intro/classes-objects.py:41-43 | the Doodle constructor builds a Doodle whose parent part equals the Dog built from the same four arguments and whose flag is the one passed |
| Dogs.ConstructorsRoundTrip | Week1/Python-Intro/classes-objects.py:13-43 | every Dog is what the Dog constructor builds from its own four attributes, and every Doodle what the Doodle constructor builds from its attributes and flag |
| Dogs.BarkSpelledOut | Week1/Python-Intro/classes-objects.py:19-20 | the bark is the name followed by " is barking", 11 characters longer than the name |
| Dogs.BarkSpeakerInvertsBark | Week1/Python-Intro/classes-objects.py:19-20 | the name can always be read back from the bark |
| Dogs.BarkSpeakerSound | Week1/Python-Intro/classes-objects.py:19-20 | reading a string back yields a dog's name exactly when that dog barks the string |
| Dogs.BarkDependsOnlyOnName | Week1/Python-Intro/classes-objects.py:19-20 | two dogs bark the same text if and only if they have the same name |
| Dogs.ToStringLayout | Week1/Python-Intro/classes-objects.py:24-25 | the text is "My name is ", the name, ", I am a ", the breed and ".", at those positions and of that total length |
| Dogs.ToStringReadsNameAndBreed | Week1/Python-Intro/classes-objects.py:24-25 | the text depends on the name and the breed only |
| Dogs.ToStringInjectiveForEqualNameLengths | Week1/Python-Intro/classes-objects.py:24-25 | for dogs whose names have equal length, the texts are equal if and only if the names and the breeds are |
| Dogs.ToStringNotInjective | Week1/Python-Intro/classes-objects.py:24-25 | a name containing ", I am a " lets two dogs with different names describe themselves identically |
| Dogs.DoodleInheritsMethods | Week1/Python-Intro/classes-objects.py:19-42 | a Doodle barks and describes itself exactly like the Dog built from the same four arguments |
| Dogs.DemonstrationObjects | Week1/Python-Intro/classes-objects.py:28-48 | Ellie the Maltese describes itself as "My name is Ellie, I am a Maltese."; the Doodle callie barks "callie is barking" and carries the flag |

## Left out

- Floating point: Python's `/` returns a float; `Divide` returns the exact real quotient, so rounding is not modelled.
- Calculator.Divide: for integer operands Python's `/` raises `OverflowError` when the quotient lies beyond the float range (for example a dividend of 10**400 divided by 1); the exact real quotient has no such limit, so that error path is not modelled and `Divide` fails only for a zero divisor.
- Operand types: the calculator functions take integers; Python would also accept floats, mixed operands, and strings, where `+` concatenates. Those dynamic-typing uses are not modelled.
- Attribute types: `breed`, `color` and `name` are strings and `age` an integer; Python accepts any values and formats them with `str()` inside the f-strings.
- Mutation: Python attributes can be reassigned after construction; the model's values are immutable, so "bark and __str__ change no attribute" holds by construction and is stated as which attributes each reads.
- Console output: the `print` calls of the demonstration lines are not modelled; their values appear in `Dogs.DemonstrationObjects`.
