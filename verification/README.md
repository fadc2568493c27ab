# tfsync — a Dafny model of the Terraform/AWS reconciliation loop

`tfsync/cli.py` runs `terraform init` in a configuration directory and, if
that succeeds, walks a fixed table of four resource descriptors (Step
Functions state machines, Glue crawlers, Lambda functions, DMS replication
tasks). A descriptor is processed only when some file of the directory starts
with its `object_type`. For each such kind it pages through the AWS listing
call, following the continuation token, extracts a positional attribute tuple
from every listed object, formats a Terraform address and a provider ID from
it, and runs `terraform import` once per object, logging an error for each
failed import without stopping.

The model is functional:

- `options.dfy` — `Option` and `dict.get`.
- `commands.dfy` — the `init` and `import` argument vectors, the exit-code rule,
  and parsers that read the vectors back (the partners of the builders).
- `descriptors.dfy` — the descriptor record, Python format strings as
  templates of literal / `{resource_type}` / `{obj[i]}` pieces, attribute
  extraction, and the four-entry registry.
- `pagination.dfy` — the AWS service as a finite script of responses (call `j`
  returns `script[j]`), reference definitions of the pages fetched, the
  keyword arguments of each call and the collected items, and the `Paginate`
  loop proved equal to them.
- `reconcile.dfy` — the per-object import loop, the error log, the gating over
  the registry and the whole run, with terraform as an exit-code oracle
  `(invocation number, argv) -> exit code`.

A missing attribute is rendered as `None`, as `str(None)` does, so an item
without a `Name` is imported as `aws_glue_crawler.None`. An empty
`--backend-config` value adds no flag, because the code tests its truthiness.

An absent items field is not treated as an empty page: the code reads it with
`response.get(...)` and then calls `.extend` on, or maps over, the resulting
`None` (tfsync/cli.py:195, 202-203), which fails. `Pagination.Answerable`
therefore requires the items field on every fetched page.

## Model

| member | source | states |
|---|---|---|
| Options.Get | tfsync/cli.py:203 | `item.get(attr)` is Some exactly when the key is present, and then holds its value |
| Commands.Effective | tfsync/cli.py:61 | the backend config reaches the command only when it is present and non-empty |
| Commands.Succeeded | tfsync/cli.py:66 | a terraform run counts as successful exactly when its exit code is 0 (`True if not exit_code`); the import wrapper applies the same rule at line 88 |
| Commands.InitCommand | tfsync/cli.py:58-62 | init argv is terraform path and `init`, then `-no-color` iff requested, then `-backend-config=<file>` iff a non-empty file is given, last, and nothing else (length) |
| Commands.ImportCommand | tfsync/cli.py:81-84 | import argv is terraform path and `import`, `-no-color` at position 2 iff requested, address and provider ID as the last two elements |
| Commands.InitRoundTrip | tfsync/cli.py:58-62 | parsing an init argv recovers the no-color choice and the (effective) backend config |
| Commands.InitParseSound | tfsync/cli.py:58-62 | every argv the init parser accepts is the init command of the options it returns |
| Commands.ImportRoundTrip | tfsync/cli.py:81-84 | parsing an import argv recovers no-color, address and provider ID |
| Commands.ImportParseSound | tfsync/cli.py:81-84 | every argv the import parser accepts is the import command of the options it returns |
| Descriptors.Extract | tfsync/cli.py:203-204 | one value per entry of `attribute_list`, in order; element i is the item's value for attribute i, None iff the item lacks it |
| Descriptors.ExtractOnlyReadsAttributes | tfsync/cli.py:203-204 | items that agree on the listed attributes give the same tuple |
| Descriptors.Render | tfsync/cli.py:207-210 | `str.format` field by field: an empty template gives "", a literal is copied, `{resource_type}` gives the keyword argument, `{obj[i]}` gives `str(obj[i])` (None as "None") |
| Descriptors.Address | tfsync/cli.py:207-208 | with the registry's `{resource_type}.{obj[0]}` template the address is the resource type, a dot and `str(obj[0])` |
| Descriptors.ProviderId | tfsync/cli.py:209 | a provider-ID template that is a single `{obj[i]}` gives `str(obj[i])` |
| Descriptors.RenderAppend | tfsync/cli.py:207-210 | formatting a concatenated template is the concatenation of the formatted parts |
| Descriptors.RegistryWellFormed | tfsync/cli.py:125-187 | every registry entry's templates index within its attribute list (provider-ID templates use no `resource_type`), and the four kinds are distinct |
| Descriptors.RegistryFormats | tfsync/cli.py:125-210 | for every entry the address is `aws_resource + "." + obj[0]`; the provider ID is `obj[1]` for `sfn` and `obj[0]` for crawler, lambda and dms |
| Descriptors.CrawlerExample | tfsync/cli.py:142-156 | a crawler named `my-crawler` imports as `aws_glue_crawler.my-crawler` with ID `my-crawler` |
| Descriptors.StateMachineExample | tfsync/cli.py:126-141 | a state machine imports under its name with its ARN as ID |
| Pagination.StopIndex | tfsync/cli.py:197 | the index of the first response whose token is absent or empty; every earlier response carries a token |
| Pagination.Fetched | tfsync/cli.py:193-202 | the pages fetched are the shortest prefix of the script ending in a response without a token |
| Pagination.ConcatAppend | tfsync/cli.py:195-202 | collecting two runs of pages is collecting each in turn |
| Pagination.ConcatHasEveryPage | tfsync/cli.py:195-202 | page j's items sit, in order, between those of the pages before and after it |
| Pagination.RequestChain | tfsync/cli.py:193-200 | one call per fetched page plus the first, and the first call uses the descriptor's initial kwargs |
| Pagination.ChainUpdatesOnlyToken | tfsync/cli.py:197-200 | each later call has exactly the previous call's keys plus `token_kwarg`, which holds the previous response's token, and every other kwarg unchanged |
| Pagination.ChainKeepsOtherKwargs | tfsync/cli.py:198 | every non-token kwarg keeps its initial value in every call |
| Pagination.CallCount | tfsync/cli.py:193-200 | the number of calls is one plus the number of fetched responses that carried a non-empty token |
| Pagination.SinglePage | tfsync/cli.py:193-197 | a first response without a token ends enumeration after one call with the initial kwargs, collecting just its items |
| Pagination.AllPagesCollected | tfsync/cli.py:195-202 | N pages whose last alone lacks a token are all fetched, one call each |
| Pagination.LambdaMarker | tfsync/cli.py:162-163 | lambda's `NextMarker` token is sent back as the `Marker` kwarg |
| Pagination.Paginate | tfsync/cli.py:193-202 | the loop collects the in-order concatenation of the fetched pages' items and issues exactly the chain of kwargs |
| Reconcile.Matching | tfsync/cli.py:190 | the file names kept by the comprehension are exactly the directory's names that start with the kind, and no more than there are names |
| Reconcile.Gated | tfsync/cli.py:190 | the comprehension is non-empty exactly when some file name starts with the kind |
| Reconcile.Attempt | tfsync/cli.py:207-212 | one object's import uses the formatted address and ID and runs the import command of those two as the given invocation, keeping its exit code |
| Reconcile.Reconcile | tfsync/cli.py:206-212 | exactly one import per object, in order, with that object's address and ID, the i-th as invocation n + i, regardless of earlier failures |
| Reconcile.ErrorLog | tfsync/cli.py:211-215 | a single import logs its address and ID exactly when it exited non-zero and logs nothing otherwise; the log never has more entries than imports |
| Reconcile.ErrorLogAppend | tfsync/cli.py:206-215 | the log of a run of imports is the log of its first part followed by the log of the rest, so it keeps the order of the imports |
| Reconcile.ErrorLoggedIffFailed | tfsync/cli.py:211-215 | an error is logged for an address and ID exactly when an import of them exited non-zero |
| Reconcile.ErrorLogCountsFailures | tfsync/cli.py:213-215 | the log holds one entry per failed import |
| Reconcile.SyncOne | tfsync/cli.py:190-212 | one kind: one listing call per fetched page, one import attempt per collected item |
| Reconcile.SyncOneRequests | tfsync/cli.py:193-200 | the listing calls of one kind are exactly the kwargs chain of its script: the initial kwargs, then each with the previous page's token |
| Reconcile.SyncOneImportsEachItem | tfsync/cli.py:203-212 | collected item i is imported as invocation n + i under the address and provider ID formatted from its extracted tuple |
| Reconcile.SyncAll | tfsync/cli.py:188-215 | the kinds synced are, in registry order, exactly those some file name starts with; across all kinds the k-th import attempt is terraform invocation n + k, built from its own address and ID |
| Reconcile.SyncAllHasEach | tfsync/cli.py:188-212 | in a registry with distinct kinds, every gated entry has a sync that is exactly its own enumeration of its script and import of every object collected |
| Reconcile.SyncAllOnlyGated | tfsync/cli.py:188-212 | every sync is exactly some gated entry's enumeration of its own script and import of every object collected |
| Reconcile.GatedTypesSound | tfsync/cli.py:188-190 | a kind is among the gated kinds iff some entry of that kind has a matching file |
| Reconcile.Run | tfsync/cli.py:122-215 | init runs first as invocation 0 with the init argv; if it exits non-zero nothing is listed or imported, otherwise exactly the gated kinds are synced, in order, and the k-th import of the run is invocation k + 1 |
| Reconcile.KindSyncedIffGated | tfsync/cli.py:122-190 | a registry kind is synced iff init succeeded and some file name starts with it |
| Reconcile.RunSyncsEachGatedKind | tfsync/cli.py:122-212 | after a successful init, every gated registry kind has a sync that lists its own script page by page and imports every object collected from it |
| Reconcile.RunSyncIsGatedKind | tfsync/cli.py:122-212 | every sync of a run is some gated registry kind's listing of its own script and import of every object collected from it |

## Left out

- Process execution and output streaming (`execute_tf`, tfsync/cli.py:29-46): terraform is the oracle `Reconcile.Runner`; the working directory is fixed for a run and not passed to it.
- Logging setup and every log message except the failed-import error (tfsync/cli.py:100-119); `ErrorLog` models that one message's address and ID.
- Argument parsing (tfsync/cli.py:92-98): `Reconcile.Args` holds the backend config and the no-color switch; `--debug` only changes log levels; the path is the directory whose file names are passed as `names`.
- boto3 client creation and the API calls (tfsync/cli.py:192-193, 199-200): `client_name` and `method_name` are carried as data; each kind's responses are a finite script, so a service that never stops paginating is excluded by `Pagination.Answerable`.
- Reconcile.SyncAll: its own contract gives the order of the synced kinds and the numbering of the imports; what each sync lists and imports is stated by `SyncAllHasEach` and `SyncAllOnlyGated`.
- Reconcile.Run: its own contract gives the init command, the gating on init and the kinds and numbering; what each sync lists and imports is stated by `RunSyncsEachGatedKind` and `RunSyncIsGatedKind`.
- Pagination.Answerable: a fetched response without the items field makes the code fail; the model requires the field instead of modelling the failure.
- API errors raised during listing, which abort the rest of the run, are not modelled.
- Item attributes other than strings (dates, nested structures) are not modelled; `Descriptors.Item` maps names to strings.
- In-place mutation of the descriptor's `method_kwargs` (tfsync/cli.py:198) is modelled as a kwargs value threaded through the calls; the mutation is invisible because each descriptor is listed once.
- setup.py is packaging metadata and is not part of this model.
