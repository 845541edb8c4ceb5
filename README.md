# mod_gearman, modelled in Dafny

mod_gearman is an Apache HTTP Server module. It tells a gearman job server
about changes to the resources the web server holds. A DELETE becomes a
background `unregister` job for the request's path. A PUT becomes a
`register` job for the path. A WebDAV COPY (section 9.8 of RFC 4918) becomes
a `register` job for the path in its `Destination` header (section 10.3 of
RFC 4918). A WebDAV MOVE (section 9.9 of RFC 4918) becomes an `unregister`
job for the source followed by a `register` job for the destination.

This project models two parts of `mod_gearman.c`:

- `GearmanConfig` models the per-directory configuration record. It covers
  the defaults Apache gives the record of a configuration section that holds
  one of the module's directives (`Gearman`, `GearmanHost`, `GearmanPort`),
  and the merge Apache applies when such a section is nested inside another.
  It also models what repeated merging along a chain of such sections
  yields. A section without any of these directives gets no record and
  inherits the enclosing one whole.
- `GearmanHooks` models the fixups hook, which handles DELETE, and the
  output filter, which handles PUT, COPY and MOVE. Each is a function from
  an abstract request to the ordered list of jobs it submits and the status
  it returns. Every call of `submit_job` becomes one `(job name, path)`
  entry of that list.

The request is reduced to what the hooks read. That is the method, the
request path, whether it is a subrequest, and the optional `Destination`
header. The header comes together with the outcome of parsing it as a URI:
the path component, or a parse failure. Parsing is done by APR and is not
modelled, so its outcome is an input. The configuration the hook reads is
passed in as a parameter.

The module's `enabled` flag is an `int` that Apache's flag directive only
ever sets to 0 or 1. The model uses `bool` for it. `host` is an
`Option<string>` because the C pointer may be NULL. `port` is an `int` where
0 means "not set".

`ChangeEvents` is a reference table of which change events each method
stands for, written without regard to which hook reports them.
`HooksSubmitChangeEvents` proves that for a main request in an enabled
section, the two hooks together submit exactly those events, in that order.

## Model

| member | source | states |
|---|---|---|
| GearmanConfig.CreateDirConfig | mod_gearman.c:17-25 | a fresh section is disabled, with host "localhost" and port 4730 |
| GearmanConfig.MergeDirConfigs | mod_gearman.c:27-38 | the merged host is the inner section's when set, else the outer's; likewise the port, where 0 means unset; `enabled` is always the inner section's |
| GearmanConfig.MergeNeverInheritsEnabled | mod_gearman.c:35 | the outer section's `enabled` never reaches the merged result |
| GearmanConfig.MergeSelf | mod_gearman.c:33-35 | merging a configuration with itself returns it unchanged |
| GearmanConfig.MergeFullySetChild | mod_gearman.c:33-35 | an inner section that sets both host and port keeps its own configuration |
| GearmanConfig.MergeAssociative | mod_gearman.c:33-35 | merging nested sections gives the same result in any grouping |
| GearmanConfig.MergeChainInnermost | mod_gearman.c:27-38 | along a chain of nested sections, the innermost section that sets a host (a port) decides it, the server's value applies when no section sets it, and `enabled` is the innermost section's |
| GearmanConfig.CreatedSectionHidesOuterServer | mod_gearman.c:20-22 | as written, merging any outer section with a freshly created inner one that turns the module on or off but sets no host or port yields host "localhost" and port 4730, never the outer values |
| GearmanConfig.CreatedSectionLosesConfiguredHost | mod_gearman.c:33-34 | a concrete outer section with host "queue.internal" and port 4731 whose server an inner section holding only `Gearman On` does not inherit |
| GearmanConfig.CreateUnsetDirConfig | mod_gearman.c:17-25 | corrected fresh section: disabled, host and port unset |
| GearmanConfig.EffectiveHost | mod_gearman.c:69 | the connection step: the host handed to the client library is the configured one; a NULL host gets the library's default, "localhost" |
| GearmanConfig.EffectivePort | mod_gearman.c:69 | the connection step: the configured `int` port is narrowed to the library's 16-bit port type, so the port used lies in 1..65535, is congruent to the configured one modulo 65536, equals it for 1..65535, and is the library's default 4730 when the narrowed value is 0 |
| GearmanConfig.EffectivePortWraps | mod_gearman.c:69 | GearmanPort 70000 connects to port 4464, and GearmanPort 65536 narrows to 0 and so to the default 4730 |
| GearmanConfig.MergeChain | mod_gearman.c:27-38 | not a function of the module: the server applying the merge once per enclosing section that holds one of the module's directives (sections without one pass the enclosing record through); an empty chain leaves the server's configuration, otherwise `enabled` is the innermost section's |
| GearmanConfig.UnsetSectionInheritsServer | mod_gearman.c:27-38 | with the corrected defaults, an inner section that sets neither host nor port, with the module on or off, connects where the outer one does, and a lone fresh section still connects to localhost:4730 |
| GearmanConfig.UnsetChainInheritsServer | mod_gearman.c:27-38 | with the corrected defaults, a chain of sections none of which sets a host or a port (each may turn the module on or off) connects to the server's host and port |
| GearmanHooks.RequestHook | mod_gearman.c:88-110 | returns OK exactly for a DELETE of a main request in an enabled section, and then submits exactly one ("unregister", uri); otherwise it declines and submits nothing |
| GearmanHooks.ResponseFilter | mod_gearman.c:112-145 | PUT submits ("register", uri); COPY with a parsed destination submits ("register", destination path); MOVE with one submits ("unregister", uri) then ("register", destination path); DELETE and other methods submit nothing and pass on; returns what passing the brigade on returns (`PassedOn`) except that it declines exactly for a COPY or MOVE without a usable destination and then submits nothing; submits at most two jobs; an unregister job is only the first job of a MOVE and carries the source path; a register job is the last job and carries the PUT path or the parsed destination |
| GearmanHooks.PutRegistersPath | mod_gearman.c:116-117 | PUT submits exactly one ("register", uri) and passes the brigade on |
| GearmanHooks.MissingDestinationDeclines | mod_gearman.c:119-128 | COPY or MOVE with no Destination header, or one that does not parse, submits nothing and declines without passing the brigade on |
| GearmanHooks.CopyRegistersDestination | mod_gearman.c:119-130 | COPY with a parsed destination submits exactly one ("register", destination path) and nothing for the source |
| GearmanHooks.MoveUnregistersThenRegisters | mod_gearman.c:131-143 | MOVE with a parsed destination submits ("unregister", uri) and then ("register", destination path), in that order |
| GearmanHooks.OtherMethodsPassThrough | mod_gearman.c:116-144 | DELETE and every method other than PUT, COPY and MOVE submit nothing in the filter and pass the brigade on |
| GearmanHooks.FilterIgnoresSubrequest | mod_gearman.c:112-145 | the filter treats a subrequest like a main request |
| GearmanHooks.ChangeEvents | mod_gearman.c:102-143 | the reference table: no events exactly for a COPY or MOVE without a destination, at most two events, and a MOVE is unregister-source then register-destination |
| GearmanHooks.HooksSubmitChangeEvents | mod_gearman.c:88-145 | for a main request in an enabled section, the fixups hook's jobs followed by the filter's are exactly the request's change events; without a destination, nothing is submitted and the filter declines |
| GearmanHooks.DisabledOnlySilencesDelete | mod_gearman.c:94-100 | in a disabled section or for a subrequest the fixups hook declines and submits nothing, so a DELETE is not reported at all, while the filter still reports a PUT, and a COPY or MOVE with a parsed destination |

## Findings

| source | as written | input that shows it | evidently intended | confidence | as-written member | corrected member |
|---|---|---|---|---|---|---|
| mod_gearman.c:20-22 | every section that holds one of the module's directives starts with host "localhost" and port 4730, so the merge's fallback to the outer section's host (and port) never applies | outer section with GearmanHost queue.internal and GearmanPort 4731, inner section with `Gearman On` but no GearmanHost or GearmanPort: requests under the inner section go to localhost:4730 | a section that does not set GearmanHost or GearmanPort inherits them from the enclosing section, with localhost:4730 only as the final default | medium; not executed | GearmanConfig.CreatedSectionLosesConfiguredHost | GearmanConfig.UnsetSectionInheritsServer |

In the source the port fallback still applies when a section's port ends up 0,
for instance through an explicit `GearmanPort 0`. The corrected model leaves
host and port unset in a fresh section. The connection then takes the client
library's defaults for a NULL host and a zero port, localhost and 4730
(`EffectiveHost`, `EffectivePort`). libgearman is not part of this model; those
two defaults are taken as given.

## Left out

- How Apache decides which sections get a record is part of its configuration core, which is not part of this model. A section with none of the module's directives gets no record, and the enclosing record passes through it unchanged, `enabled` included. `MergeChain` therefore lists only the sections that hold one of the directives.
- `submit_job` (mod_gearman.c:54-86) talks to the job server through libgearman: it creates a client, adds the server and submits a background job. The model records only which job is submitted with which path. Every failure there is only logged and never changes a hook's return value, so leaving it out changes no status.
- Logging (`ap_log_rerror`), pool allocation and `ap_get_module_config` are Apache runtime calls. The configuration a hook reads is a parameter instead.
- The directive table `gearman_cmds` (mod_gearman.c:40-52) and its `ap_set_*_slot` handlers belong to Apache's configuration parser. A section's configuration after its directives are applied is any `DirConfig` value.
- Hook and filter registration (mod_gearman.c:147-162) is left out. Whether the output filter runs at all depends on the server's filter configuration, which the model does not see.
- Parsing of the `Destination` header with `apr_uri_parse` is an input to the model. Its outcome is given as a path or a failure. A destination that parses but has no path component is not modelled. For such a destination, for instance `Destination: http://host`, mod_gearman.c:129 and 142 hand the NULL `uri.path` to `submit_job`, whose line 78 calls `strlen` on it. That is undefined behaviour and most likely crashes the server process. This is an observation from reading the code, not executed, and the model's parse outcome (a path or a failure) cannot express it.
- The output filter can run once per bucket brigade of a response. The model covers one invocation.
- The 32-bit width of `port` does not matter to the merge, which only compares it with 0, so it is an unbounded `int`. How Apache's integer directive turns a number too large for an `int` into the stored value is part of its configuration parser and is not modelled. The narrowing to a 16-bit port where the connection is made is modelled in `EffectivePort`.
