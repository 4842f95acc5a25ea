# dnf container plugin — decision logic in Dafny

This project models the decision logic of the `dnf container` plugin
(`container.py`), which checks locally installed system containers against
their registries and optionally updates them:

- **Drift detection** (`_check`): each installed container's image reference is
  inspected on its registry as `docker://<image_name>`; the `Digest` entry
  (default `":"`) is split on `:` and its second piece is compared with the
  digest recorded for the container. Containers whose digests differ are
  reported as `(container, remote digest)` records, in inventory order.
- **Confirmation gate** (`_update`): the update proceeds if `assumeyes`, or else
  if `assumeno` is not set and the operator confirms. The operator is asked
  only when neither flag is set.
- **Update loop** (`_update`, `_pull_existing_tag`, `_update_container`): for
  each drifted container, in order, the local image is looked up and pulled
  again (forced, except on the `ostree` backend, which refuses forced pulls).
  Then the container's checkout is updated from its own image reference with no
  argument overrides. No error is caught between containers, so the first
  failure ends the whole batch.
- **Dispatch** (`run`): `check` runs the detection only; `update` runs all three.

Everything the plugin calls out to is a parameter of the model:
- the registry inspection is a function `string -> Inspection`;
- the backends are a `Backend` record of functions: local image lookup (the
  backend holding the image and its input name),
  the error a pull raises, if any, checkout presence, and the error a checkout
  update raises, if any;
- the operator's reply to the prompt is a boolean. The result records whether
  the prompt was shown.

A run is described by a `Session`. It holds:
- the references inspected;
- the drift found;
- whether the operator was asked;
- the trace of backend calls (`Pull`, `Reprovision`);
- the error the command ended with, if any.

Modules: `Results` (Option/Result), `Text` (Python's `str.split`), `Digest`,
`Drift`, `Gate`, `Orchestrator`, `Command`.

The model follows the code in these places:
- An inspection that raises during `_check` is not isolated per container.
  The whole check aborts (`Drift.CheckStopsAtFirstError`).
- A `Digest` value with no colon raises `IndexError` at `container.py:83`.
  It is not treated as "update needed".
- The update loop is fail-fast. It does not isolate per-container failures.

## Model

| member | source | states |
|---|---|---|
| Text.Split | container.py:83 | `str.split(':')` yields one more piece than there are colons, no piece contains a colon, and joining the pieces with `:` gives back the input |
| Digest.SecondSegment | container.py:83 | taking `split(':')[1]` fails (IndexError) exactly when the value has no colon, and otherwise yields a colon-free piece |
| Digest.NoColonRaises | container.py:83 | a value without a colon splits into a single piece, itself, so taking `[1]` raises IndexError |
| Digest.SecondSegmentBetweenColons | container.py:83 | for any value of the form `a:r` or `a:r:...` with colon-free `a` and `r`, the extracted digest is exactly `r`, the text between the first and second colon |
| Digest.DigestField | container.py:83 | `.get('Digest', ':')` returns the reported digest when present, and otherwise a default containing a colon |
| Digest.RemoteDigest | container.py:83 | the digest extraction raises exactly when a `Digest` entry is present and has no colon; a missing entry never raises |
| Digest.AlgorithmAndHex | container.py:83 | a registry digest `algorithm:hex` yields its `hex` part |
| Digest.ShaExample | container.py:83 | `sha256:def456` yields `def456` |
| Digest.MissingKeyGivesEmpty | container.py:83 | an inspection without a `Digest` entry falls back to `":"` and yields the empty digest |
| Digest.ExtraColonsDropped | container.py:83 | with extra colons only the second piece is kept: `sha256:abc:def` yields `abc` |
| Drift.Reference | container.py:82 | the reference inspected is the container's image name behind the `docker://` prefix |
| Drift.RemoteDigestOf | container.py:81-83 | a container's remote digest fails with the inspection's own error, propagated unchanged, when the inspection of `docker://<image_name>` raises; it fails with a bare IndexError exactly when the reported `Digest` has no colon; otherwise it is colon-free |
| Drift.Check | container.py:65-107 | the check completes exactly when every container's inspection and digest extraction succeed, and then it has inspected `docker://<image_name>` for every container exactly once, in inventory order (none for an empty inventory) |
| Drift.CheckReportsExactlyOutdated | container.py:77-86 | a record `(c, d)` is reported if and only if `c` is in the inventory, its remote digest is `d`, and `d` differs from the installed digest |
| Drift.CheckNeverReportsCurrent | container.py:84-86 | no reported record carries the digest that is already installed |
| Drift.CheckPreservesOrder | container.py:69-86 | the reported containers form an order-preserving subsequence of the inventory |
| Drift.CheckStopsAtFirstError | container.py:77-83 | when the `k`-th container is the first whose inspection or digest extraction raises, the check fails with that error after inspecting exactly the first `k + 1` containers |
| Drift.CheckEmptyInventory | container.py:69-73 | an empty inventory gives an empty result and no inspection at all |
| Drift.CheckOne | container.py:77-86 | a single container with remote digest `d` is reported with `d` exactly when `d` differs from its installed digest |
| Drift.CheckCons | container.py:77-86 | a container in front of the inventory contributes its own record, if outdated, in front of the records of the rest |
| Drift.OrderExample | container.py:77-86 | inventory `[A, B, C]` with `A` and `C` outdated yields `[A, C]`, in that order |
| Drift.WebNeedsUpdate | container.py:81-86 | installed `abc123` against remote `sha256:def456` is reported as `(web, "def456")` |
| Drift.DbUpToDate | container.py:81-86 | installed `xyz` against remote `sha256:xyz` is not reported |
| Gate.Confirm | container.py:115-117 | the update proceeds iff `assumeyes or (not assumeno and answer)`, and the operator is asked iff neither `assumeyes` nor `assumeno` is set |
| Gate.UnpromptedIgnoresAnswer | container.py:115-117 | with `assumeyes` or `assumeno` set, the decision does not depend on what the operator would answer |
| Gate.AssumeYesWins | container.py:115 | `assumeyes` proceeds without a prompt even when `assumeno` is set too |
| Orchestrator.PullExistingTag | container.py:139-161 | a container whose image is not found locally fails with an error naming the container, with no pull; otherwise exactly one pull of the local input name is made, on the backend that holds the image, forced exactly when the container's own recorded backend is not `ostree`, with the configured debug flag, and the step fails exactly when that pull raises, with the backend's own error |
| Orchestrator.UpdateContainer | container.py:122-137 | without a checkout the step fails with an error naming the container, with no update call; with one, the only call updates the container from its own image reference with no overrides, and the step succeeds iff that call does not raise, failing otherwise with the backend's own error |
| Orchestrator.UpdateOne | container.py:119-120 | one loop iteration finishes iff all the container's backend calls go through, makes at most two calls, and exactly two when it finishes |
| Orchestrator.UpdateOneMatchesExpected | container.py:118-161 | when all its backend calls go through, one container's update makes exactly its pull followed by its checkout update; otherwise it ends with the error of the first call that fails: a missing local image or checkout names the container, a raising pull or checkout update carries the backend's own error |
| Orchestrator.Apply | container.py:118-120 | the loop over the drifted containers finishes iff every container's calls go through, making two calls per container then and never more; its call trace and fail-fast behaviour are pinned by `ApplyAllSucceed` and `ApplyStopsAtFirstFailure` |
| Orchestrator.ApplyAllSucceed | container.py:118-120 | the batch ends without error iff every container's calls succeed, and then the trace is, container by container in plan order, the pull followed by the update |
| Orchestrator.ApplyStopsAtFirstFailure | container.py:118-120 | when the `k`-th container is the first to fail, the batch ends with the error of that container's first failing call, after the expected calls for the containers before it and the calls `k` made itself; no later container is touched |
| Orchestrator.ExpectedTraceLayout | container.py:118-120 | in a successful batch of `n` containers the trace has `2n` calls, and the `i`-th container's pull is at position `2i`, directly followed by its update |
| Command.CheckCommand | container.py:59-60 | the `check` subcommand never prompts and makes no backend call; it fails exactly when the check raises, and otherwise has inspected every container |
| Command.UpdateCommand | container.py:109-120 | the operator is asked exactly when drift was found and neither flag is set; a backend call is made only if drift was found and the gate let it through; a failed check prompts for nothing and calls nothing |
| Command.RunCommand | container.py:52-63 | `check` runs the check: it fails exactly when the check raises, and otherwise reports the check's drift after inspecting every container; `update` runs the update: it reports the check's drift or error, prompts exactly when drift was found and neither flag is set, and calls a backend only after drift and approval; an approved update with drift ends without error exactly when every drifted container's calls succeed, and then pulls and updates each drifted container in order; any other subcommand does nothing; only `update` ever prompts or calls a backend |
| Command.UpdateWithoutDrift | container.py:113-114 | with no drift, `update` neither prompts nor calls a backend, and ends without error |
| Command.UpdateDeclined | container.py:115-117 | a declined or `assumeno` gate makes no backend call and ends without error |
| Command.UpdatePresetIgnoresAnswer | container.py:115-117 | with `assumeyes` or `assumeno` set, the whole `update` run is the same whatever the operator would answer, and no prompt is shown |
| Command.UpdateApproved | container.py:113-120 | an approved update succeeds iff every drifted container's calls succeed, and then pulls and updates each drifted container, in drift order, with debug on above level 5 |
| Command.UpdateFailsFast | container.py:118-120 | an approved update stops at the first drifted container that fails, ends with the error of that container's first failing call (naming the container for a missing local image or checkout, the backend's own error otherwise), and makes no call for any later container |
| Command.Debug | container.py:50 | backend calls are made verbose exactly above debug level 5 |

## Left out

- Command registration, argument parsing and the root-user demand (`container.py:30-50`). These are framework glue. Only the debug threshold (`debuglevel > 5`) is kept, as `Command.Debug`.
- All logger output (`container.py:74-104`, `126`, `159`). It is informational only.
- The internals of `skopeo_inspect`, `BackendUtils`, `SystemContainers` and the backend's pull. They are foreign library and network calls. They appear only as the oracle parameters described above.
- The image object and `debug` keyword passed along with the pull, and `sc.args = Namespace(remote=True)`. The model does not see what the backend does with them. The pull action records the backend that holds the image (the handle `be` it is made on), the input name, `force` and `debug`.
- A `ValueError` raised by `get_checkout` itself (`container.py:130`, `136-137`). The model treats checkout presence as a total boolean oracle. Only the checkout update can raise.
- `container.created` and `original_structure['Type']`. They are read only for a debug log line.
- A registry inspection that raises is modelled by the message of the error it raised (`InspectFailed`), not by its Python exception type.
- A pull or checkout update that raises is modelled by the message of the error the backend raised (`PullFailed`, `ReprovisionFailed`), not by its Python exception type. A `ValueError` from the checkout update is re-raised as a dnf error with that same message (`container.py:136-137`).
- Inspection replies whose `Digest` value is not a string. The reply is modelled as a map from strings to strings.
- The commented-out `_latest_image` and `_pull_latest` (`container.py:164-203`). They are dead code inside a string literal.
