# FilterConfig of the editable-choice plugin, in Dafny

The editable-choice Jenkins plugin offers a text parameter with a list of
suggested values. `FilterConfig` is the record that says how those
suggestions are filtered: two boolean flags, `prefix` (match only at the
start of a value) and `caseInsensitive`. Both default to `false`. The record
has plain setters and getters, fluent `withPrefix`/`withCaseInsensitive`
setters that return the same instance, and `toJson`, which renders both
flags as the one-line JSON object `{"prefix": P, "caseInsensitive": C}`.
The input view reads that object.

`filter_config.dfy` (module `FilterConfigs`) models it as follows:

- `Flags` is the abstract value of a configuration (its two flags) and
  `Defaults` is the value of a fresh one.
- `UpdatePrefix` and `UpdateCaseInsensitive` give each setter's effect on
  that value. Lemmas show that each setter is idempotent and that the two
  commute, since each touches only its own field.
- `BoolToString` is Java's `Boolean.toString`. `Render` is the
  `String.format` call of `toJson`, built from the constants `Head`,
  `Middle` and `Tail`, which spell out the format string around the two
  `%s` placeholders.
- `Parse` (with `ParseBool`, `ParseValues` and `ParseCaseInsensitive`) is
  a decoder for exactly that shape. `ParseRender` proves the round trip,
  `Parse`'s own contract proves that only rendered text decodes, and
  `RenderInjective` concludes that the four possible outputs are pairwise
  distinct.
- `FilterConfig` is a class with the two mutable `bool` fields.
  - The constructor leaves both flags false.
  - `SetPrefix` and `SetCaseInsensitive` (`modifies this`) tie the new
    `State()` to the update functions and say that the other field is
    unchanged.
  - `WithPrefix` and `WithCaseInsensitive` have the same effect and return
    `this`.
  - The getters `IsPrefix` and `IsCaseInsensitive` (FilterConfig.java:66-68,
    90-92) are `reads this` functions. What they return is stated by the
    constructor's and setters' contracts, which are written through them.
  - `ToJson` reads the state only. Its result decodes to the current flags,
    and no other text does.

The flags are opaque booleans here. `FilterConfig` only stores and renders
them; the client-side script that uses them to filter suggestions is not
part of this model.

## Model

| member | source | states |
|---|---|---|
| `FilterConfigs.FilterConfig.constructor` | src/main/java/io/jenkins/plugins/editable_choice/FilterConfig.java:45-53 | a new configuration has `prefix == false` and `caseInsensitive == false` (its state is `Defaults`) |
| `FilterConfigs.FilterConfig.SetPrefix` | src/main/java/io/jenkins/plugins/editable_choice/FilterConfig.java:59-68 | afterwards `IsPrefix()` returns the argument and `IsCaseInsensitive()` is what it was; the new state is `UpdatePrefix` of the old |
| `FilterConfigs.FilterConfig.WithPrefix` | src/main/java/io/jenkins/plugins/editable_choice/FilterConfig.java:74-77 | the same state change as `SetPrefix`, and the returned reference is this very instance |
| `FilterConfigs.FilterConfig.SetCaseInsensitive` | src/main/java/io/jenkins/plugins/editable_choice/FilterConfig.java:83-92 | afterwards `IsCaseInsensitive()` returns the argument and `IsPrefix()` is what it was; the new state is `UpdateCaseInsensitive` of the old |
| `FilterConfigs.FilterConfig.WithCaseInsensitive` | src/main/java/io/jenkins/plugins/editable_choice/FilterConfig.java:98-101 | the same state change as `SetCaseInsensitive`, and the returned reference is this very instance |
| `FilterConfigs.FilterConfig.ToJson` | src/main/java/io/jenkins/plugins/editable_choice/FilterConfig.java:107-113 | reads only the object's fields; the text decodes to exactly the current two flags, and it is the only text that does |
| `FilterConfigs.Render` | src/main/java/io/jenkins/plugins/editable_choice/FilterConfig.java:108-112 | the `String.format` call of `toJson`: the format string, spelled out by `Head`, `Middle` and `Tail`, with `BoolToString` of each flag in place of the two `%s`; its properties are stated by `ParseRender`, `Parse` and `RenderInjective` |
| `FilterConfigs.FilterConfig.IsPrefix` | src/main/java/io/jenkins/plugins/editable_choice/FilterConfig.java:66-68 | a `reads this` getter of the prefix flag; what it returns is stated by the constructor, `SetPrefix`, `SetCaseInsensitive` and `ToJson` contracts, which are written through it |
| `FilterConfigs.FilterConfig.IsCaseInsensitive` | src/main/java/io/jenkins/plugins/editable_choice/FilterConfig.java:90-92 | a `reads this` getter of the caseInsensitive flag; what it returns is stated by the constructor, `SetCaseInsensitive`, `SetPrefix` and `ToJson` contracts, which are written through it |
| `FilterConfigs.UpdatePrefix` | src/main/java/io/jenkins/plugins/editable_choice/FilterConfig.java:59-61 | setting prefix makes it the given value and leaves caseInsensitive as it was |
| `FilterConfigs.UpdateCaseInsensitive` | src/main/java/io/jenkins/plugins/editable_choice/FilterConfig.java:83-85 | setting caseInsensitive makes it the given value and leaves prefix as it was |
| `FilterConfigs.UpdatePrefixIdempotent` | src/main/java/io/jenkins/plugins/editable_choice/FilterConfig.java:59-61 | setting prefix twice to the same value leaves the same state as setting it once |
| `FilterConfigs.UpdateCaseInsensitiveIdempotent` | src/main/java/io/jenkins/plugins/editable_choice/FilterConfig.java:83-85 | setting caseInsensitive twice to the same value leaves the same state as setting it once |
| `FilterConfigs.UpdatesCommute` | src/main/java/io/jenkins/plugins/editable_choice/FilterConfig.java:59-85 | the two setters commute, and applying both yields exactly the two given values whatever the starting state |
| `FilterConfigs.BoolToString` | src/main/java/io/jenkins/plugins/editable_choice/FilterConfig.java:110-111 | the text is `"true"` or `"false"`, and it is `"true"` exactly when the flag is set |
| `FilterConfigs.ParseBool` | src/main/java/io/jenkins/plugins/editable_choice/FilterConfig.java:110-111 | a text read as a boolean is that boolean's rendering followed by the rest, and a text starting with neither rendering is refused |
| `FilterConfigs.ParseBoolOf` | src/main/java/io/jenkins/plugins/editable_choice/FilterConfig.java:110-111 | a rendered boolean followed by any text reads back as that boolean and that text |
| `FilterConfigs.Parse` | src/main/java/io/jenkins/plugins/editable_choice/FilterConfig.java:108-112 | any text the decoder accepts is exactly the rendering of the flags it returns |
| `FilterConfigs.ParseRender` | src/main/java/io/jenkins/plugins/editable_choice/FilterConfig.java:108-112 | decoding the rendered text of any flags gives those flags back |
| `FilterConfigs.RenderUnique` | src/main/java/io/jenkins/plugins/editable_choice/FilterConfig.java:108-112 | the rendering of the flags is the only text that decodes to them |
| `FilterConfigs.RenderInjective` | src/main/java/io/jenkins/plugins/editable_choice/FilterConfig.java:108-112 | two flag combinations render to the same text if and only if they are equal, so the four outputs are distinct |

## Left out

- `FilterConfig.DescriptorImpl.getDisplayName` (FilterConfig.java:120-127) returns a localized label from generated message bundles. Those are not part of this model.
- `Serializable` and `serialVersionUID`, the data-binding and registration annotations, and the `AbstractDescribableImpl` base class are framework plumbing with no logic of their own.
- The browser-side suggestion panel is not modelled: how it filters suggestions by these flags, its keyboard and mouse handling, and its check of the value against the choices. The UI test `EditableChoiceParameterDefinitionUiTest.java:149-530` drives part of that panel: opening on focus, the initial selection, closing with Escape, moving with ArrowUp/ArrowDown, committing with Enter, and hovering with the mouse. The panel is outside this model's scope.
- The literal four texts `toJson` can produce are not separately proved. The model gives them as `Render` over the constants `Head`, `Middle` and `Tail`, and it proves their distinctness and decodability.
- Java strings are UTF-16; the model's `string` is a sequence of `char`. This makes no difference here, because the rendered text is plain ASCII.
