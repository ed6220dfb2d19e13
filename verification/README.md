# manage_gameobject request/response translator in Dafny

This project models the `manage_gameobject` tool of the Unity MCP bridge's
Python server. The tool takes about two dozen optional arguments from an agent
and turns them into a command for the Unity editor host. It then turns the
host's reply into a uniform result dictionary `{success, message[, data]}`.
Everything between the agent and the socket is pure, and that part is modelled:

- **Request normaliser** (`request.dfy`). It maps the snake_case arguments
  onto camelCase wire keys and drops every argument that is `None`. For
  `action == "create"` with a truthy `saveAsPrefab` it also handles the prefab
  path:
  - with no `prefabPath`, it derives `{prefab_folder}/{name}.prefab` and turns
    every backslash into `/`;
  - with a `prefabPath`, it checks case-insensitively that the path ends in
    `.prefab`.

  Either step can end the call with a local failure before anything is sent.
  Finally it pops the key `prefab_folder`.
- **Response normaliser** (`response.dfy`). The host reply, or a fault raised
  while sending, becomes the result envelope. Missing fields get the fixed
  default messages.
- **The tool end to end** (`gateway.dfy`). The socket transport is a function
  parameter, `(string, map<string, Value>) -> Outcome`, given the command name
  `manage_gameobject` and the wire payload. "The host is not contacted" is
  stated as "the result is the same for every transport".

Supporting modules:

- `values.dfy` holds the JSON-like `Value` (with `Null` for Python's `None`),
  Python truthiness, `dict.get`, and the `Envelope` record.
- `text.dfy` holds character replacement, ASCII lowercasing and the suffix test.
- `request_properties.dfy` holds the lemmas about the request side.

Arguments are typed as the Python signature annotates them:
- `Option<string>` for `Optional[str]`;
- `Option<bool>` for `Optional[bool]`;
- `Option<Value>` for the unions, lists and dicts.

`CallWithDefaults` gives the signature's defaults: `False` for the four flags
and `"Assets/Prefabs"` for `prefab_folder`.

The payload is keyed by a `Field` enumeration. `WirePayload` renders it under
the camelCase strings. `WireKeyInjective` proves that no two fields share a
wire key, so the two views carry the same information.

Two points follow the code rather than its comments:

- **`prefabFolder` is sent.** The cleanup at line 110 pops the snake_case key
  `"prefab_folder"`. That key never occurs in the camelCase map, so the pop
  removes nothing. `prefabFolder` (by default `Assets/Prefabs`) therefore stays
  in every payload where the argument is not `None`, although the comment
  above that line says it should not be sent. The model keeps the no-op
  (`PopPrefabFolderIsNoOp`, `RequestProperties.PrefabFolderForwarded`).
- **The default message replaces only a missing key.** The response side uses
  `reply.get("message", default)` and `reply.get("error", default)`. The
  default is used only when the key is missing. A present `null` or empty
  message is passed through unchanged.

Also, the derived path uses the raw `prefab_folder` argument, not the payload.
An explicit `prefab_folder=None` therefore yields the text `None/…`, which the
model reproduces through `FolderText`.

## Model

| member | source | states |
|---|---|---|
| Values.Truthy | Python/tools/manage_gameobject.py:98-120 | Python truthiness: the falsy values are exactly `None`, `False`, `0`, `0.0`, `""`, `[]` and `{}` |
| Values.Get | Python/tools/manage_gameobject.py:98 | `d.get(k, default)` yields the stored value when the key is present and the default exactly when it is absent |
| Values.FromString | Python/tools/manage_gameobject.py:95 | an `Optional[str]` argument denotes `None` exactly when it was not supplied, and otherwise the supplied text |
| Values.FromBool | Python/tools/manage_gameobject.py:95 | an `Optional[bool]` argument denotes `None` exactly when it was not supplied, and otherwise the supplied boolean |
| Values.FromValue | Python/tools/manage_gameobject.py:95 | an optional argument denotes `None` exactly when it was not supplied or was supplied as `None`; otherwise it denotes the supplied value |
| Request.CallWithDefaults | Python/tools/manage_gameobject.py:11-40 | a call giving only `action` has `save_as_prefab`, `find_all`, `search_in_children`, `search_inactive` = `False`, `prefab_folder` = `Assets/Prefabs`, and every one of the other twenty parameters `None` |
| Request.WireKey | Python/tools/manage_gameobject.py:67-94 | every wire key is camelCase (contains no underscore) and decodes back to its own field |
| Request.ArgOf | Python/tools/manage_gameobject.py:67-94 | `action` is always sent as the given text; every `Optional[str]` parameter contributes a text or `None`, every `Optional[bool]` parameter a boolean or `None` |
| Request.Pruned | Python/tools/manage_gameobject.py:95 | the pruned map holds exactly the fields whose argument is not `None`, each with its argument's value, and always holds `action` |
| Request.WireKeyInjective | Python/tools/manage_gameobject.py:67-94 | the argument-to-wire-key table is one-to-one: every wire key decodes back to its own field, so no two arguments collide in the payload |
| Request.WirePayload | Python/tools/manage_gameobject.py:67-94 | the wire dictionary has an entry under a field's key with that field's value for every field in the payload, and no key that is not some field's wire key |
| RequestProperties.PruneKeepsExactlySupplied | Python/tools/manage_gameobject.py:67-95 | after pruning, a wire key is present exactly when its argument is not `None`, and it carries that argument's value unchanged |
| RequestProperties.FalsyValuesSurvive | Python/tools/manage_gameobject.py:95 | only `None` is pruned: `False`, `0`, `""` and `[]` arguments stay in the payload with their values |
| RequestProperties.DefaultsAreSent | Python/tools/manage_gameobject.py:11-95 | a bare call sends exactly six keys: `action`, the four `False` flags and `prefabFolder = "Assets/Prefabs"`; no parameter the caller left at `None` appears |
| Request.PopKey | Python/tools/manage_gameobject.py:110 | `pop(key, None)` keeps exactly the entries whose wire key differs from `key`, with their values, and adds nothing |
| Request.PopPrefabFolderIsNoOp | Python/tools/manage_gameobject.py:81-110 | popping `"prefab_folder"` leaves every payload unchanged, because no argument has that wire key |
| RequestProperties.PrefabFolderForwarded | Python/tools/manage_gameobject.py:81-110 | whenever `prefab_folder` is supplied and the call is not rejected, `prefabFolder` is in the sent payload and on the wire with the supplied folder, and no pruned key is removed |
| Request.PrefabBranch | Python/tools/manage_gameobject.py:98 | the prefab branch is taken exactly for `action == "create"` with `save_as_prefab=True` |
| Request.FolderText | Python/tools/manage_gameobject.py:103 | the f-string renders a supplied folder as itself and a `None` folder as the text `None` |
| Request.DerivedPrefabPath | Python/tools/manage_gameobject.py:103-105 | a derived prefab path never contains a backslash and always passes the `.prefab` suffix check |
| Request.PrefabSuffixSurvives | Python/tools/manage_gameobject.py:103-106 | replacing backslashes in `stem + ".prefab"` keeps the `.prefab` ending, before and after lowercasing |
| RequestProperties.ForwardSlashPathKept | Python/tools/manage_gameobject.py:103-105 | with no backslash in folder or name, the derived path is exactly `folder + "/" + name + ".prefab"` |
| RequestProperties.BackslashFolderNormalised | Python/tools/manage_gameobject.py:103-105 | a backslash separator in the folder becomes `/` and nothing else in the derived path changes (`Assets\Custom` gives `Assets/Custom/Cube.prefab`) |
| RequestProperties.DefaultFolderExample | Python/tools/manage_gameobject.py:25-105 | `name="Cube"` with the default folder derives `Assets/Prefabs/Cube.prefab` |
| Request.BadExtensionMessage | Python/tools/manage_gameobject.py:107 | the rejection message is `Invalid prefab_path: '` + path + `' must end with .prefab`, and the full path can be read back from between the two fixed parts |
| Request.LocalFailure | Python/tools/manage_gameobject.py:101-107 | a local validation failure is an unsuccessful envelope with no `data` key |
| Request.ApplyPrefabRule | Python/tools/manage_gameobject.py:99-107 | inside the prefab branch, a failure is unsuccessful with no data; a success changes the pruned payload at most in `prefabPath`, which is then present, a string, and ends in `.prefab` ignoring case |
| Request.Normalize | Python/tools/manage_gameobject.py:67-110 | a local failure happens only in the create-and-save-as-prefab branch; outside it the payload is the pruned map itself; inside it a successful payload differs from the pruned map at most in a `prefabPath` passing the suffix check |
| RequestProperties.NoOpOutsidePrefabBranch | Python/tools/manage_gameobject.py:98-110 | when the action is not `create` or `saveAsPrefab` is not `True`, the sent payload equals the pruned map exactly |
| RequestProperties.DefaultPathDerivation | Python/tools/manage_gameobject.py:98-105 | create with `saveAsPrefab`, no `prefabPath` and a non-empty name succeeds; the payload is the pruned one plus `prefabPath = replace(folder + "/" + name + ".prefab", "\", "/")`, which has no backslash |
| RequestProperties.MissingNameFails | Python/tools/manage_gameobject.py:99-101 | with no `prefabPath` and a missing or empty name, the result is exactly the failure with the fixed "name parameter is missing" message and no data |
| RequestProperties.ExtensionCheck | Python/tools/manage_gameobject.py:106-107 | an explicit `prefabPath` is accepted if and only if its lowercase form ends in `.prefab`; when accepted the payload is the pruned map unchanged, and when rejected the failure message embeds the path |
| RequestProperties.UpperCaseSuffixPasses | Python/tools/manage_gameobject.py:106 | the suffix check ignores case: any path ending in `.PREFAB` (such as `Assets/Foo.PREFAB`) passes |
| RequestProperties.RejectedExtensionExample | Python/tools/manage_gameobject.py:106 | `Assets/Foo.txt` fails the suffix check |
| Text.ReplaceChar | Python/tools/manage_gameobject.py:105 | `str.replace` of one character: same length, each position replaced exactly when it held the old character, and the old character is gone afterwards |
| Text.ReplaceCharIdentity | Python/tools/manage_gameobject.py:105 | replacing a character that does not occur leaves the text unchanged |
| Text.ReplaceCharConcat | Python/tools/manage_gameobject.py:105 | replacement distributes over concatenation |
| Text.ReplaceSingle | Python/tools/manage_gameobject.py:105 | a single occurrence between stretches free of it is the only thing replaced |
| Text.ReplaceCharKeepsSuffix | Python/tools/manage_gameobject.py:105 | a suffix free of the replaced character comes through the replacement untouched |
| Request.PrefabExtensionIsPlain | Python/tools/manage_gameobject.py:103-106 | the `.prefab` extension contains no backslash and is already lower case, so neither rewrite touches it |
| Text.LowerWithoutUpper | Python/tools/manage_gameobject.py:106 | text without upper-case letters is its own lower-case form |
| Text.LowerKeepsLowerSuffix | Python/tools/manage_gameobject.py:106 | a lower-case suffix comes through lowercasing untouched |
| Text.EndsWithConcat | Python/tools/manage_gameobject.py:106 | any stem followed by a suffix ends with that suffix |
| Text.LowerChar | Python/tools/manage_gameobject.py:106 | per-character `str.lower` on ASCII: an upper-case letter moves to its lower-case letter (code point + 32), every other character is kept |
| Text.Lower | Python/tools/manage_gameobject.py:106 | `str.lower` on ASCII: same length, each upper-case letter mapped to its lower-case form, everything else kept |
| Text.LowerConcat | Python/tools/manage_gameobject.py:106 | lowercasing distributes over concatenation |
| Text.EndsWith | Python/tools/manage_gameobject.py:106 | when `endswith(suffix)` holds, the text is the part before the suffix followed by the suffix itself |
| Text.EndsWithIffConcat | Python/tools/manage_gameobject.py:106 | `endswith(suffix)` holds if and only if the text is some stem followed by the suffix |
| Response.FaultEnvelope | Python/tools/manage_gameobject.py:125-126 | a raised fault becomes an unsuccessful envelope with no data whose message is the fixed prefix followed exactly by the fault text |
| Response.MapResponse | Python/tools/manage_gameobject.py:120-126 | the envelope succeeds if and only if the reply's `success` is truthy; `data` is present exactly on success and is then the host's `data` (`None` when missing); the message is the host's `message` (on success) or `error` (on failure) whenever that key is present, and the default only when it is missing; a raised fault gives exactly the prefixed fault envelope |
| Response.EnvelopeFields | Python/tools/manage_gameobject.py:121-123 | the result dictionary holds `success` as the envelope's flag and `message` as its message, plus `data` with the envelope's data exactly when the envelope has data; a failure has only `success` and `message` |
| Response.SuccessMapping | Python/tools/manage_gameobject.py:120-121 | a truthy `success` yields the host's message (the default only when the key is missing) and the host's data, `None` when missing, always present |
| Response.HostFailureMapping | Python/tools/manage_gameobject.py:122-123 | a false or missing `success` yields the host's `error` (the default only when missing) and no data |
| Response.FaultMapping | Python/tools/manage_gameobject.py:125-126 | a raised fault yields exactly `{success: false, message: "Python error managing GameObject: " + detail}` |
| Response.SuccessEnvelopeRoundTrip | Python/tools/manage_gameobject.py:120-121 | a successful envelope written out as a host reply maps back to itself |
| Response.HostReplyExamples | Python/tools/manage_gameobject.py:120-123 | `{success: true, message: "ok", data: {id: 5}}` passes through; `{success: false, error: "not found"}` fails with that message; an empty reply fails with the default |
| Gateway.ManageGameObject | Python/tools/manage_gameobject.py:67-126 | a local failure is returned as is without sending; otherwise the wire payload goes to the transport and its outcome is mapped; in every case `data` is present exactly on success |
| Gateway.LocalFailureSkipsTransport | Python/tools/manage_gameobject.py:98-116 | when validation fails locally, the result is the same for every transport, and it is a failure with no data |
| Gateway.TransportFaultIsFolded | Python/tools/manage_gameobject.py:116-126 | a fault raised by the transport never escapes; it becomes the prefixed failure envelope |
| Gateway.MockHostExample | Python/tools/manage_gameobject.py:116-121 | the payload is sent under the command name `manage_gameobject`: a host that answers only that command with success yields its message and data |

## Left out

- Tool registration with the MCP server and the `@mcp.tool()` decorator
  (lines 5-8): server bootstrap with no logic.
- The socket transport `get_unity_connection().send_command` (line 116). Its
  module is not part of this model. It is the `Transport` parameter, which
  receives the command name `Gateway.CommandName` and the wire payload.
- Python's exception machinery. A fault raised while sending is the
  `Raised(detail)` outcome, with `str(e)` as an opaque string. With typed
  arguments nothing in the normaliser itself can raise. A non-string
  `prefab_path`, whose `.lower()` would raise and be folded into the fault
  envelope, is excluded by the `Option<string>` type.
- Argument type validation by the MCP framework. It is modelled only through
  the types of the `Args` fields.
- The contents of `position`, `rotation`, `scale`, `components_to_add` and
  `component_properties`. Floats and nested dictionaries are opaque
  pass-through values; no float arithmetic is modelled.
- Unicode case folding. `Text.Lower` lowercases ASCII letters only.
- A host reply that is not a dictionary, where `.get` would raise and be
  folded into the fault envelope. `Outcome.Reply` always carries a map.
- Idempotence of normalisation is not stated separately. Every operation is a
  pure function of its inputs.
