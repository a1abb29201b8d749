# Pod manifest validator, modelled in Dafny

This project models the schema checker of a small command-line tool. The tool
reads one YAML document and accepts it only if it is a `v1` `Pod` of a fixed
shape. Otherwise it prints a single diagnostic, `"<file>:<line> <message>"`, and
fails. The model starts from the parsed node tree. It covers:

- the lookup layer (`validator/helpers.go`): `findMappingNode`, `findKeyNode`,
  `requireField` and `Errorf`;
- the nine fail-fast `validate*` rules and the snake-case pattern
  (`validator/rules.go`).

Modules:

- `Optional` (`option.dfy`): the `Option` type.
- `YamlNode` (`yaml_node.dfy`): the yaml.v3 node as a value. It has a kind
  (`Mapping`, `Sequence`, `Scalar`, `Other`), the scalar text, the line and the
  children. `WellFormed` says that every mapping alternates keys and values.
- `StrConv` (`strconv.dfy`): `strconv.Atoi` on a 64-bit platform, and the `%d`
  rendering of a line number.
- `Helpers` (`helpers.dfy`): the diagnostic `Diag(anchorLine, msg)`, where line
  0 means no line is shown. `Errorf` builds the failure value and `Render`
  builds the line written to standard error. It also holds the two key searches,
  each both as a specification function and as the source's stepping `while`
  loop proved equal to it, and `RequireField`.
- `Schema` (`schema.dfy`): which trees are meant to be accepted, written as
  predicates with no order of checks and no messages.
- `Rules` (`rules.dfy`): one function per `validate*`, each returning `None` or
  the first diagnostic. Each is proved to accept exactly the trees of the
  matching `Schema` predicate. The `for ... range` loops are one generic
  first-failure function over a sequence (containers, ports) and one over a
  fixed list of field names (the two probes, `requests`/`limits`).
- `RuleProperties` (`rule_properties.dfy`): which violation wins when there are
  several, the exact message and its line, and worked values for the integer,
  port and memory formats.
- `Scenarios` (`scenarios.dfy`): whole documents. A minimal pod is accepted for
  every valid container name and image. Any other `kind`, e.g. `Deployment`, is
  refused at the kind's line. A pod with no `spec` is refused at the root's line.

Where the code acts differently from a plain reading of the schema, the model
follows the code:

- An explicit `null` is a yaml.v3 scalar, so `metadata.name: null` is accepted
  (`validator/rules.go:59-63`). It is not a separate node kind.
- `strconv.Atoi` takes a leading `+` and leading zeros. So `"+80"` and `"0080"`
  are valid ports, and `"-5Mi"` and `"+0Ki"` are valid memory quantities.
- The missing-field diagnostic is anchored at the parent mapping, because
  `findKeyNode` returns the parent when the key is absent.

## Model

| member | source | states |
|---|---|---|
| Helpers.Errorf | validator/helpers.go:12-20 | the failure value carries exactly the message; a line is shown iff the anchor node exists and its line is positive, and it is then that line |
| Helpers.Render | validator/helpers.go:14-18 | the output is the file name, then `:` and the line exactly when a line is shown, then a blank, the message and a newline; its length adds up accordingly |
| Helpers.RenderShowsLine | validator/helpers.go:15 | the digits between the `:` and the blank read back, through `strconv.Atoi`, as the anchor line |
| Helpers.KeyIndexFrom | validator/helpers.go:29-34 | the search from an even position stops at the first even position whose key text equals the key, and finds nothing iff no such position exists |
| Helpers.KeyIndex | validator/helpers.go:29-34 | the result is the smallest even index whose key matches, and the search finds nothing iff no even-indexed key matches |
| Helpers.MappingValue | validator/helpers.go:25-36 | nothing for a non-mapping whatever its content; nothing iff no even-indexed key matches; otherwise `Content[i+1]` for the smallest matching even `i`, so on duplicate keys the first wins; a result is always a child of the parent |
| Helpers.FindMappingNode | validator/helpers.go:25-36 | the loop stepping `i += 2` returns exactly `MappingValue` |
| Helpers.KeyAnchor | validator/helpers.go:49-60 | three outcomes: nothing for a non-mapping, the first matching key node when the key is present, the parent itself when it is absent |
| Helpers.FindKeyNode | validator/helpers.go:49-60 | the loop returns exactly `KeyAnchor` |
| Helpers.RequireField | validator/helpers.go:39-46 | succeeds iff `findMappingNode` finds the field, returning that node; otherwise fails with `"<field> is required"` anchored at the parent mapping's line |
| Helpers.KeyIndexReadsOnlyKeys | validator/helpers.go:29-33 | two content lists with the same key texts give the same search result: value positions are never compared |
| Helpers.MappingValueReadsOnlyKeys | validator/helpers.go:29-35 | two mappings with the same key texts agree on whether the key is found and at which position |
| StrConv.Atoi | validator/rules.go:178 | a result is in the signed 64-bit range and comes only from an optional sign followed by one or more ASCII digits; a bare or `+`-signed digit string succeeds iff its value is at most 2^63-1 and then reads as that value; a `-`-signed one succeeds iff its value is at most 2^63 and then reads as its negation |
| StrConv.Decimal | validator/helpers.go:15 | the `%d` text of a line is a non-empty digit string without a leading zero whose value is the line |
| StrConv.AtoiDecimal | validator/helpers.go:15 | `Atoi` reads back the `%d` text of any non-negative 64-bit value, with no sign, `+` or `-` in front |
| Rules.MatchesSnakeCase | validator/rules.go:12 | the pattern `^[a-z0-9_]+$` matches iff the name is non-empty and every character is a lower-case letter, a digit or `_` |
| Rules.ImageAccepted | validator/rules.go:136 | an image passes iff it starts with `registry.bigbrother.io/` and has a `:` after that prefix |
| Rules.PortAccepted | validator/rules.go:178-181 | a port passes iff the text parses as an integer `p` with `0 < p < 65536` |
| Rules.FirstFailure | validator/rules.go:85-89 | the loop over a sequence succeeds iff every element from the start position on passes |
| Rules.FirstFailingName | validator/rules.go:241-273 | the loop over a fixed list of field names succeeds iff the check passes for every name |
| Rules.ValidateTopLevel | validator/rules.go:14-48 | reports nothing iff the root is a mapping with `apiVersion` the scalar `v1`, `kind` the scalar `Pod`, a valid `metadata` and a valid `spec` |
| Rules.ValidateMetadata | validator/rules.go:50-64 | reports nothing iff `metadata` is a mapping whose `name` is present and a scalar, empty or null included |
| Rules.ValidateSpec | validator/rules.go:66-91 | reports nothing iff `spec` is a mapping whose optional `os` is valid and whose `containers` is present, a sequence, and holds only valid containers |
| Rules.ValidateContainers | validator/rules.go:85-90 | the loop over containers reports nothing iff every container is valid |
| Rules.ValidatePodOS | validator/rules.go:93-110 | reports nothing iff `os` is a mapping whose `name` is the scalar `linux` or `windows` |
| Rules.ValidateContainer | validator/rules.go:112-164 | reports nothing iff the container is a mapping with a snake-case scalar `name`, a well-formed scalar `image`, valid optional ports and probes, and valid `resources` |
| Rules.ValidatePortsIn | validator/rules.go:140-149 | an absent `ports` passes; a present one passes iff it is a sequence of valid port items |
| Rules.ValidateProbesIn | validator/rules.go:151-157 | passes iff each of `readinessProbe` and `livenessProbe` is absent or valid |
| Rules.ValidateProbeIn | validator/rules.go:152-156 | one named probe passes iff it is absent or valid |
| Rules.ValidatePort | validator/rules.go:166-192 | a port item passes iff it is a mapping with a scalar `containerPort` in range and an optional scalar `protocol` of `TCP` or `UDP` |
| Rules.ValidateProbe | validator/rules.go:194-204 | a probe passes iff it is a mapping with a valid `httpGet` |
| Rules.ValidateHTTPGet | validator/rules.go:206-234 | passes iff it is a mapping with a scalar `path` starting with `/` and a scalar `port` in range |
| Rules.ValidateResources | validator/rules.go:236-275 | passes iff `resources` is a mapping whose optional `requests` and `limits` are valid |
| Rules.ValidateSectionIn | validator/rules.go:242-272 | one named section passes iff it is absent or valid |
| Rules.ValidateSection | validator/rules.go:243-271 | a section passes iff it is a mapping whose optional `cpu` and `memory` are valid |
| Rules.ValidateCpu | validator/rules.go:247-254 | a cpu passes iff it is a scalar that parses as an integer |
| Rules.ValidateMemory | validator/rules.go:256-271 | a memory value passes iff it is a scalar ending in `Ki`, `Mi` or `Gi` whose prefix parses as an integer |
| RuleProperties.RootMustBeMapping | validator/rules.go:15-17 | a non-mapping root gives `root must be a mapping` at the root's line |
| RuleProperties.MissingApiVersionReported | validator/rules.go:19-22 | a missing `apiVersion` is reported at the root's line, whatever else is wrong |
| RuleProperties.BadApiVersionReported | validator/rules.go:23-25 | a wrong `apiVersion` is reported at its own line, quoting its value, whatever else is wrong |
| RuleProperties.MissingKindReported | validator/rules.go:27-30 | with a good `apiVersion`, a missing `kind` is reported at the root's line |
| RuleProperties.BadKindReported | validator/rules.go:31-33 | with a good `apiVersion`, a wrong `kind` is reported at its line, quoting it, e.g. `kind has unsupported value 'Deployment'` |
| RuleProperties.MissingMetadataReported | validator/rules.go:35-38 | with the first two fields good, a missing `metadata` is reported at the root's line |
| RuleProperties.BadMetadataReported | validator/rules.go:39-41 | with the first two fields good, a bad `metadata` is what is reported, masking anything in `spec` |
| RuleProperties.MissingSpecReported | validator/rules.go:43-46 | with the first three fields good, a missing `spec` is reported at the root's line |
| RuleProperties.SpecCheckedLast | validator/rules.go:43-47 | with the first three fields good, the outcome is the spec's outcome |
| RuleProperties.FirstFailureAt | validator/rules.go:85-89 | the loop reports the outcome of the first failing element, in sequence order |
| RuleProperties.FirstFailureIsAnOutcome | validator/rules.go:85-89 | a failing loop reports the outcome of some element all of whose predecessors pass |
| RuleProperties.SpecReportsFirstFailingContainer | validator/rules.go:77-90 | with `os` absent or valid, a spec reports exactly the first failing container's diagnostic |
| RuleProperties.OSCheckedBeforeContainers | validator/rules.go:71-75 | a failing `os` masks everything about the containers |
| RuleProperties.OSNameReported | validator/rules.go:105-108 | an `os.name` other than `linux` or `windows` is reported at its line, quoting it |
| RuleProperties.ContainerNameReported | validator/rules.go:124-126 | a scalar container name that is not snake-case gives `containers.name has invalid format '<name>'` at its line |
| RuleProperties.ImageReported | validator/rules.go:135-138 | after a valid name, a malformed image gives `containers.image has invalid format '<image>'` at its line |
| RuleProperties.ContainerSectionOrder | validator/rules.go:140-163 | after name and image, `ports` is checked first; a failing `readinessProbe` is reported next, and any failing probe before `resources`; with ports and probes passing, `resources` decides, and its absence is reported at the container's line |
| RuleProperties.ProbesInOrder | validator/rules.go:151-157 | a failing `readinessProbe` is reported before `livenessProbe`, and either is checked only when present |
| RuleProperties.ContainerPortReported | validator/rules.go:178-181 | a non-integer and an out-of-range `containerPort` give the same message, at its line |
| RuleProperties.HTTPGetPortReported | validator/rules.go:229-232 | the same for an `httpGet.port` after a valid path |
| RuleProperties.PortAcceptedExamples | validator/rules.go:178-181 | `80`, `+80`, `65535` and `0080` are valid ports |
| RuleProperties.PortRejectedExamples | validator/rules.go:178-181 | `0`, `65536`, `-1` and the empty text are not |
| RuleProperties.PortSyntaxExamples | validator/rules.go:178 | blanks, a base prefix, a digit separator and a letter make a port invalid |
| RuleProperties.MemoryQuantityAtLeastThree | validator/rules.go:261-270 | every accepted memory value has at least three characters, so the length test changes no verdict |
| RuleProperties.MemoryAcceptedExamples | validator/rules.go:260-270 | `128Mi`, `1Gi`, `-5Mi` and `+0Ki` are accepted |
| RuleProperties.MemoryRejectedExamples | validator/rules.go:260-270 | `100`, `10Xi`, `Mi`, `1.5Gi`, `128M` and `5 Mi` are rejected |
| RuleProperties.MemoryReported | validator/rules.go:260-270 | a bad scalar memory value gives `resources.<section>.memory has invalid format '<value>'` at its line |
| RuleProperties.SectionFieldOrder | validator/rules.go:247-271 | within one section a failing `cpu` is reported before `memory`; with `cpu` absent or valid, `memory` decides, and nothing is reported when it is absent |
| RuleProperties.LimitsMemoryReported | validator/rules.go:241-270 | with `requests` absent or valid and the `limits` cpu absent or valid, a bad scalar `limits.memory` is what the resources report: `resources.limits.memory has invalid format '<value>'` at its line |
| RuleProperties.SectionsInOrder | validator/rules.go:241-273 | a failing `requests` is reported before `limits`, and either is checked only when present |
| Scenarios.MinimalPodAccepted | validator/rules.go:14-48 | a pod with one container that has a valid name, a valid image and empty resources is accepted |
| Scenarios.OtherKindRefused | validator/rules.go:31-33 | the same pod with a kind other than `Pod`, and without `%`, is refused at the kind's line, quoting the kind |
| Scenarios.OtherKindRendered | validator/helpers.go:14-15 | the line printed for it is `pod.yaml:2 kind has unsupported value '<kind>'` |
| Scenarios.DeploymentRefused | validator/rules.go:31-33 | a `Deployment` gives `kind has unsupported value 'Deployment'` at line 2 |
| Scenarios.MissingSpecRefused | validator/rules.go:43-46 | a pod with no `spec` gives `spec is required` at the root's line |

## Left out

- validator/validator.go is not part of this model. It reads the file, calls `yaml.Unmarshal` and unwraps the document node. The model takes the root content node as an input, and a file or parse error never reaches it.
- main.go is not part of this model: the argument-count check and the exit codes are command-line plumbing.
- The write to standard error is not modelled. `Render` states the text of the line and `Errorf` the returned value.
- The process-wide `filename` variable is a parameter of `Render`.
- Helpers.Errorf: its message is the plain text. The source passes that text to `fmt.Sprintf` and `fmt.Errorf` as a format string, so Go would rewrite a value that contains `%`. Every lemma that states an exact message quoting a document value therefore requires that value to hold no `%`.
- yaml.v3 tags, anchors, aliases and styles are not modelled. Document and alias nodes are the `Other` kind, which every rule rejects.
- The `regexp` engine is replaced by the character-class predicate it stands for.
- Strings are read as byte strings: each character of a model string stands for one byte of the Go string, so lengths, slices and prefixes agree with Go's byte indexing. UTF-8 decoding is not modelled. The one check that decodes text is the snake-case pattern, which Go's `regexp` matches rune by rune; its class `[a-z0-9_]` is ASCII only, so it contains neither a byte of 0x80 or above nor any rune decoded from such bytes, and the byte reading gives the same verdict.
- A mapping with an odd number of children is excluded by `WellFormed`. yaml.v3 never builds one. On one whose last key matches, Go would index past the end and panic.
- `strconv.Atoi` is modelled for a 64-bit `int`. On a 32-bit platform its range would be narrower. Its error values (syntax or range) are not distinguished; only failure is.
- Helpers.KeyAnchor: its branch that returns a found key node is never reached from `requireField`, which asks only for keys it has just failed to find. It is kept because `findKeyNode` has it.
