# goruby runtime values, in Dafny

A model of the runtime value layer of goruby, a tree-walking interpreter for a
Ruby-like language (`object/ruby_object.go`). It covers:

- the closed set of 26 type tags, many in `X` / `X_CLASS` pairs, where the
  second names the class object of the category (`TypeTags`);
- the three observers every value offers — `Type`, `Inspect`, `Class` — for
  the four kinds defined in that file: `Builtin`, the `ReturnValue` and
  `Error` sentinels, and the user-defined `Function` (`Values`);
- the display form of a `Function`: `fn(`, the parameter names joined by
  `", "`, `) {`, a newline, the body text, a newline and `}` (`FunctionText`,
  with the join in `Strings`).

Values are one immutable datatype `Value`. Value kinds defined elsewhere in the
interpreter (integers, strings, arrays, class objects, ...) appear as
`Other(tag, display, cls)`, carrying whatever their own observers report.
A class is `Option<ClassRef>`: `None` is the interpreter's nil class, and
`ClassRef` is an identity only. A builtin's host callable is a `HostFn`
identity. A function's parameter names and body text are the strings the syntax
tree renders for them.

A return value reports the fixed `RETURN_VALUE` tag (`object/ruby_object.go:79`)
and forwards only the display form and the class (`Values.ReturnValueObservers`).

Each operation has a partner it is proved against:

- tag strings are read back by `FromName`, which makes the names injective;
- `ClassTag` has the inverse `ClassBase`, and it is tied to the `"_CLASS"`
  suffix in both directions;
- `Function.Inspect` has a parser `FunctionText.Parse`. The parser recovers
  the parameters and the body from any rendering whose parameter names are
  identifiers, so functions whose parameter or body texts differ display
  differently. The parser's helpers `Strings.IndexOf` (first occurrence of a
  character) and `Strings.IndexOfAfter` model nothing in the source and have
  no row below;
- the buffer-writing construction of the rendering (`WriteFunction`) is proved
  equal to the functional definition;
- every value decomposes as its innermost non-wrapper value under `Depth()`
  return-value wrappers, and all three observers are stated against that
  decomposition.

## Model

| member | source | states |
|---|---|---|
| TypeTags.NamesDistinct | object/ruby_object.go:13-40 | `TypeTag.Name`, the string value of each of the 26 constants, is injective: two tags have the same string exactly when they are the same tag |
| TypeTags.AllTagsComplete | object/ruby_object.go:13-40 | there are exactly 26 tags, every tag is listed, and the list has no repeats |
| TypeTags.TypeTag.Ordinal | object/ruby_object.go:13-40 | every tag has a position in the declaration order, and that position holds the tag |
| TypeTags.Lookup | object/ruby_object.go:13-40 | a lookup by string finds a listed tag with that string, or proves that no listed tag has it |
| TypeTags.FromNameName | object/ruby_object.go:13-40 | `FromName` inverts `TypeTag.Name`: reading a tag's string back gives the tag; a string reads back as nothing exactly when no tag has it |
| TypeTags.ClassTagName | object/ruby_object.go:17-38 | each of the ten paired categories has a class tag whose string is the category's string followed by "_CLASS" |
| TypeTags.ClassTagIsSuffixed | object/ruby_object.go:13-40 | `ClassTag`, the X/X_CLASS pairing, is characterised by the names: `u` is the class tag of `t` if and only if `u`'s string is `t`'s string followed by "_CLASS"; so EIGENCLASS, FUNCTION, RETURN_VALUE, SYMBOL, ERROR and BUILTIN have no class counterpart |
| TypeTags.ClassTagInjective | object/ruby_object.go:17-38 | two categories with the same class tag are the same category |
| TypeTags.ClassBaseInverse | object/ruby_object.go:17-38 | ClassBase maps each class tag back to its category, and only those |
| TypeTags.ClassObjectTagsEndInClass | object/ruby_object.go:13-40 | a tag is a class-object tag exactly when its string ends in "_CLASS" (EIGENCLASS does not) |
| Strings.JoinLength | object/ruby_object.go:106 | `Strings.Join`, standing in for the host join, has the elements' total length plus one separator per neighbouring pair; no elements give the empty string |
| Strings.JoinSnoc | object/ruby_object.go:106 | appending an element to a non-empty list appends a separator and the element to the join |
| Strings.JoinAvoids | object/ruby_object.go:106 | a character absent from the elements and the separator is absent from the join |
| Strings.SplitJoin | object/ruby_object.go:100-106 | splitting a ", "-join of identifier names recovers the names |
| FunctionText.Render | object/ruby_object.go:98-111 | a function's display form starts with "fn(", ends with a newline and "}", holds the body just before that, and has the join's length plus the body's plus 9 |
| FunctionText.WriteFunction | object/ruby_object.go:98-111 | collecting the names and then writing "fn", "(", the joined names, ") {\n", the body and "\n}" into a buffer gives the rendering |
| FunctionText.ParseRender | object/ruby_object.go:98-111 | a rendering with identifier parameter names parses back into exactly those names and that body |
| FunctionText.RenderInjective | object/ruby_object.go:98-111 | two functions with identifier parameters that display the same have the same parameters and body |
| FunctionText.RenderNoParams | object/ruby_object.go:104-109 | with no parameters the display form is "fn() {\n", the body, then "\n}" |
| FunctionText.RenderOneParam | object/ruby_object.go:104-109 | with one parameter `x` the display form starts with "fn(x) {\n" and has no separator |
| Values.Value.Innermost | object/ruby_object.go:75-81 | the value under all return-value wrappers is never itself a wrapper |
| Values.Value.Inspect | object/ruby_object.go:71-111 | a value displays as its innermost value does: "ERROR: " and the message for an error, "builtin function" for a builtin, the function rendering for a function, the kind's own display form otherwise |
| Values.Value.Class | object/ruby_object.go:71-112 | a value has a class only when a kind defined elsewhere sits innermost, and then it is that kind's class |
| Values.Wrap | object/ruby_object.go:75-77 | wrapping `n` times adds `n` to the wrapper depth |
| Values.WrapInnermost | object/ruby_object.go:75-77 | every value is its innermost value under exactly `Depth()` wrappers |
| Values.WrappersTransparent | object/ruby_object.go:79-81 | any stack of return-value wrappers keeps the display form and the class of what it wraps, and reports RETURN_VALUE as its tag |
| Values.ObserversOfInnermost | object/ruby_object.go:80-81 | every value displays and classifies as its innermost non-wrapper value |
| Values.ReturnValueObservers | object/ruby_object.go:79-81 | a return value's tag is RETURN_VALUE whatever the payload, equal to the payload's tag only when that is RETURN_VALUE too; display form and class are the payload's; its class is nil exactly when the payload's is |
| Values.ErrorObservers | object/ruby_object.go:87-89 | an error's tag is ERROR, its display form is "ERROR: " followed by the message (length of the message plus 7), and its class is nil |
| Values.BuiltinObservers | object/ruby_object.go:71-73 | a builtin's tag is BUILTIN, its display form is "builtin function" whatever it wraps, and its class is nil |
| Values.FunctionObservers | object/ruby_object.go:97-112 | a function's tag is FUNCTION, its display form is the function rendering, and its class is nil |
| Values.ClasslessKinds | object/ruby_object.go:71-112 | builtins, functions, errors and any wrapper stack around them have a nil class; a value has a class exactly when a kind defined elsewhere sits innermost and reports one |
| Values.TypeNames | object/ruby_object.go:71-97 | `Value.Type`: a value of the four kinds defined here reports BUILTIN, RETURN_VALUE, ERROR or FUNCTION, each exactly for its own kind, whatever its contents |
| Values.KindTagsUnpaired | object/ruby_object.go:13-40 | the tags of the four kinds defined here are neither class-object tags nor have a class-object counterpart |

## Left out

- Method lookup, eigenclass creation and the superclass walk: the file declares only the `Methods()`/`SuperClass()` interface and the EIGENCLASS tag, with no behaviour to model.
- The `Methods()` table of `RubyMethod`: its type is not part of this model, and nothing here fills or reads it.
- `Builtin.Fn`: a host closure; a builtin holds only its identity (`HostFn`), and invoking it is not modelled.
- `Function.Env`: the captured environment is an external collaborator shared by reference; it does not affect any of the three observers.
- The syntax tree's `String()` renderings of identifiers and block statements are not part of this model; their outputs are taken as given strings. A nil body, which would make the host rendering fail, is therefore not representable.
- `bytes.Buffer` and `strings.Join` are host library calls; they are modelled by string concatenation and `Strings.Join`.
- FunctionText.ParseRender: the round trip is stated only for parameter names that are non-empty and contain no ',' or ')'; the rendering itself accepts any strings.
- A nil return-value payload, on which the host's `Inspect`/`Class` fail, is not representable: every `ReturnValue` wraps a concrete value, so the wrapper lemmas speak only of stacks with a value innermost. The same holds for a nil `*Error` receiver.
- Host strings are byte sequences while the model's strings are character sequences; the fixed literals ("ERROR: ", "fn(", ") {\n", "\n}", ", ") are ASCII, so the offsets 7 and 9 agree in either unit, but lengths of non-ASCII messages and names are counted in characters.
- FunctionText.WriteFunction: the host converts each parameter with `String()` while collecting the names; with names given as strings, that first loop is a plain copy.
- Observers of kinds defined in other files are not modelled; `Other` carries their results as given.
