# OrleansUrlShortener core, modelled in Dafny

OrleansUrlShortener is a URL shortener built on Microsoft Orleans. A front end
hands each short token to a `UrlStoreGrain`, the grain whose key is that
token. The grain normalises the long URL, keeps it in one persisted state
cell, and returns it on lookup. A backend silo host process runs the grains.
When it starts, the host decides from configuration, environment variables
and DNS how to cluster, which cluster identity to use, and which address and
ports to bind.

The project models these pieces:

- **`Grains`** (`grains.dfy`)
  - `SetUrl`'s six-arm `switch` is the pure function `Normalize`. It keeps
    URLs that already carry a scheme, repairs the four scheme-stripped
    prefixes `http/`, `http:/`, `https/` and `https:/`, adds `http://` to
    everything else, and rejects null or blank input.
  - `class UrlStoreGrain` holds the in-memory state pair and the copy last
    written to storage. `SetUrl` is proved against `StateAfterSetUrl`, `GetUrl`
    against `UrlIn`, and `WriteState` copies the state into the persisted
    copy.
- **`SiloOptions`** (`silo_options.dfy`) models `SiloNetworkIpPortOption`.
  - The option's value and its setters form a datatype with `With...`
    functions.
  - `class SiloNetworkIpPortOption` mirrors each setter with a method.
  - The `DisableGateway` setter also clears `GatewayPort`, and assigning
    `GatewayPort` later can break that coupling.
- **`SiloNetworkIpPortOptionHelper`**: the web-app private IP and the
  comma-separated private port pair.
- **`ClusterOptionsHelper`**: the cluster id, built from a prefix plus the
  deployment-slot variable of the current OS.
- **`ContainerRunHelper`**: the `DOTNET_RUNNING_IN_CONTAINER` flag, and the
  first IPv4 address of a given address list.
- **`SiloHost`** (`silo_host.dfy`): the decisions inside the backend's
  `UseOrleans` callback, as pure functions:
  - the clustering mode;
  - the cluster-identity fallback;
  - the exposed-ports check;
  - the silo IP priority chain;
  - the network option it builds.

Supporting modules model the .NET library behaviour these pieces rely on:

- **`Text`**:
  - `char.IsWhiteSpace` as a fixed set of characters;
  - `TrimStart`, `TrimEnd` and `Trim`;
  - ordinal `StartsWith`;
  - ASCII `ToLower`;
  - `Split` and `Join` on one separator.
- **`Int32Text`**: `int.TryParse` with its white space, sign, digits and
  32-bit range rules, and `ToString` with the round trip between them.
- **`Net`**: `IPAddress` reduced to its family and bytes, `Any` and
  `Loopback`.
- **`Wrappers`**: `Option` and `Result`.

Environment variables, configuration values, the operating system and DNS
results are parameters. `IPAddress.TryParse` and `IPAddress.Parse` are one
parameter of type `string -> Option<IpAddress>`; `Parse` is that function
throwing on `None`. A thrown exception is a `Failure` value, and a C# `null`
is `None`.

Points where the code behaves in a way a reader might not expect:

- A URL that already carries a scheme keeps its leading white space, because
  that arm returns `fullUrl.TrimEnd()`.
- The `http` arms come before the `https` arms. This order does not matter,
  because the four repaired prefixes exclude one another
  (`ArmOrderIrrelevant`).
- `GetUrl` answers from the in-memory state and does not read storage again.
- The host's `Program.cs` calls neither `SiloNetworkIpPortOptionHelper` nor
  `ClusterOptionsHelper`, so the model has no priority chain combining them
  with the host's own chain.
- A vnet or node address that is set but does not parse makes startup fail.
  It does not fall through to the next source.

## Model

| member | source | states |
|---|---|---|
| `Grains.Normalize` | src/UrlShortener.Backend.Grains/UrlStoreGrain.cs:27-44 | no contract of its own: the `fullUrl switch`, arm by arm in source order; see `NormalizeFailsExactlyOnBlank`, `NormalizeKeepsSchemedUrl`, `NormalizeRepairsSanitizedPrefix`, `NormalizeDefaultsToHttp`, `ArmOrderIrrelevant` and `NormalizeIdempotent` |
| `Grains.NormalizeFailsExactlyOnBlank` | src/UrlShortener.Backend.Grains/UrlStoreGrain.cs:27-44 | normalisation fails exactly when the URL is null or all white space, and then always with the `ArgumentException` naming `fullUrl` |
| `Grains.NormalizeKeepsSchemedUrl` | src/UrlShortener.Backend.Grains/UrlStoreGrain.cs:29-30 | input whose left-trimmed form starts with `http://` or `https://` loses only its trailing white space: the result is the original leading white space followed by the left-trimmed input, right-trimmed |
| `Grains.NormalizeRepairsSanitizedPrefix` | src/UrlShortener.Backend.Grains/UrlStoreGrain.cs:33-40 | when the left-trimmed input does not already start with `http://` or `https://`, each of `http/`, `http:/`, `https/`, `https:/` at its start is replaced by `http://` or `https://`, and the rest is right-trimmed |
| `Grains.SanitizedPrefixesExclusive` | src/UrlShortener.Backend.Grains/UrlStoreGrain.cs:23-26 | no string starts with two of the four scheme-stripped prefixes |
| `Grains.ArmOrderIrrelevant` | src/UrlShortener.Backend.Grains/UrlStoreGrain.cs:27-44 | trying the `https` arms before the `http` arms gives the same result for every input |
| `Grains.NormalizeDefaultsToHttp` | src/UrlShortener.Backend.Grains/UrlStoreGrain.cs:42 | non-blank input with no recognised prefix becomes `http://` followed by the input trimmed on both sides |
| `Grains.SchemeThenTrimmed` | src/UrlShortener.Backend.Grains/UrlStoreGrain.cs:33-42 | a scheme followed by text that does not end in white space is in the stored form |
| `Grains.NormalizeResultIsNormalized` | src/UrlShortener.Backend.Grains/UrlStoreGrain.cs:27-44 | every accepted URL is non-empty, starts with `http://` or `https://` once left-trimmed, and has no trailing white space |
| `Grains.SchemedArmIsNormalized` | src/UrlShortener.Backend.Grains/UrlStoreGrain.cs:29-30 | the stored form holds for the result of the first arm |
| `Grains.SchemedTrimIsNormalized` | src/UrlShortener.Backend.Grains/UrlStoreGrain.cs:29-30 | right-trimming an input that starts with a scheme after its leading white space gives the stored form |
| `Grains.SanitizedArmsAreNormalized` | src/UrlShortener.Backend.Grains/UrlStoreGrain.cs:33-42 | the stored form holds for the results of the repair arms and the default arm |
| `Grains.RepairArmsAreNormalized` | src/UrlShortener.Backend.Grains/UrlStoreGrain.cs:33-40 | the stored form holds for the results of the four repair arms |
| `Grains.StoredFormIsFixedPoint` | src/UrlShortener.Backend.Grains/UrlStoreGrain.cs:29-30 | normalising a URL in the stored form returns it unchanged |
| `Grains.NormalizeIdempotent` | src/UrlShortener.Backend.Grains/UrlStoreGrain.cs:27-44 | normalising an accepted result again returns it unchanged |
| `Grains.HttpsColonSlashRepaired` | src/UrlShortener.Backend.Grains/UrlStoreGrain.cs:39-40 | `https:/` followed by text not starting with `/` becomes `https://` plus that text, right-trimmed; the shorter `http:/` arm never captures it |
| `Grains.HttpColonSlashRepaired` | src/UrlShortener.Backend.Grains/UrlStoreGrain.cs:35-36 | `http:/` followed by text not starting with `/` becomes `http://` plus that text, right-trimmed |
| `Grains.HttpsColonSlashExample` | src/UrlShortener.Backend.Grains/UrlStoreGrain.cs:39-40 | `https:/a.com` is stored as `https://a.com` |
| `Grains.HttpColonSlashExample` | src/UrlShortener.Backend.Grains/UrlStoreGrain.cs:35-36 | `http:/a.com` is stored as `http://a.com` |
| `Grains.NoSchemeExample` | src/UrlShortener.Backend.Grains/UrlStoreGrain.cs:42 | `a.com` is stored as `http://a.com` |
| `Grains.SchemedUrlExample` | test/UrlShortener.Backend.Grains.Test/UrlStoreGrainTest.cs:21 | `https://www.google.com`, the URL the grain test stores, is kept as it is |
| `Grains.StateAfterSetUrl` | src/UrlShortener.Backend.Grains/UrlStoreGrain.cs:46-47 | no contract of its own: the pair `SetUrl` stores, or the old state when the URL is rejected; see `SetUrlKeepsStateWellFormed`, `RejectedSetKeepsState`, `LastWriteWins` and `Grains.UrlStoreGrain.SetUrl` |
| `Grains.UrlIn` | src/UrlShortener.Backend.Grains/UrlStoreGrain.cs:50-58 | no contract of its own: the answer `GetUrl` gives in a state; see `GetAfterSet`, `GetFailsOnlyWhenNeverWritten` and `Grains.UrlStoreGrain.GetUrl` |
| `Grains.SetUrlKeepsStateWellFormed` | src/UrlShortener.Backend.Grains/UrlStoreGrain.cs:27-47 | from a never-written state or one holding a normalised URL, `SetUrl` with any argument leads to such a state again |
| `Grains.GetAfterSet` | src/UrlShortener.Backend.Grains/UrlStoreGrain.cs:46-58 | after a successful `SetUrl`, `GetUrl` succeeds with the normalised URL |
| `Grains.RejectedSetKeepsState` | src/UrlShortener.Backend.Grains/UrlStoreGrain.cs:43-47 | a null or blank URL leaves the state unchanged |
| `Grains.LastWriteWins` | src/UrlShortener.Backend.Grains/UrlStoreGrain.cs:46-47 | after two writes the second successful one alone determines the state |
| `Grains.GetFailsOnlyWhenNeverWritten` | src/UrlShortener.Backend.Grains/UrlStoreGrain.cs:50-56 | in a reachable state, `GetUrl` fails exactly when nothing was ever stored, and then with `KeyNotFoundException("Url key not exist: " + key)` |
| `Grains.UrlStoreGrain.constructor` | src/UrlShortener.Backend.Grains/UrlStoreGrain.cs:10-17 | a new activation holds the default pair, its persisted copy equals it, and its key is the grain key |
| `Grains.UrlStoreGrain.SetUrl` | src/UrlShortener.Backend.Grains/UrlStoreGrain.cs:19-48 | the new state is the segment paired with the normalised URL and is persisted; a rejected URL throws the argument error and changes neither state nor storage |
| `Grains.UrlStoreGrain.WriteState` | src/UrlShortener.Backend.Grains/UrlStoreGrain.cs:47 | the persisted copy becomes the current state, and nothing else changes |
| `Grains.UrlStoreGrain.GetUrl` | src/UrlShortener.Backend.Grains/UrlStoreGrain.cs:50-59 | returns the stored URL when it is non-null and non-empty, otherwise fails with the key-not-found message naming the key; the state is not changed |
| `Grains.StoreThenFetch` | test/UrlShortener.Backend.Grains.Test/UrlStoreGrainTest.cs:20-29 | for any key and URL, storing and then fetching returns the normalised URL; a rejected URL surfaces the argument error |
| `Grains.FetchNeverWritten` | test/UrlShortener.Backend.Grains.Test/UrlStoreGrainTest.cs:42-55 | fetching from a key never written fails with `Url key not exist: ` followed by the key |
| `SiloOptions.SiloNetworkIpPort.WithSiloIpAddress` | src/UrlShortener.Infra.Silo/Options/SiloNetworkIpPortOption.cs:15 | no contract of its own: the option after assigning `SiloIpAddress`; see `SettersAndGatewayCoupling` and `SiloOptions.SiloNetworkIpPortOption.SetSiloIpAddress` |
| `SiloOptions.SiloNetworkIpPort.WithListenOnAnyHostAddress` | src/UrlShortener.Infra.Silo/Options/SiloNetworkIpPortOption.cs:17-20 | no contract of its own: the option after assigning `ListenOnAnyHostAddress`; see `SettersAndGatewayCoupling` and `SiloOptions.SiloNetworkIpPortOption.SetListenOnAnyHostAddress` |
| `SiloOptions.SiloNetworkIpPort.WithDisableGateway` | src/UrlShortener.Infra.Silo/Options/SiloNetworkIpPortOption.cs:29-37 | no contract of its own: the option after assigning `DisableGateway`; see `DisableGatewaySetter` and `SiloOptions.SiloNetworkIpPortOption.SetDisableGateway` |
| `SiloOptions.SiloNetworkIpPort.WithSiloPort` | src/UrlShortener.Infra.Silo/Options/SiloNetworkIpPortOption.cs:40 | no contract of its own: the option after assigning `SiloPort`; see `SettersAndGatewayCoupling` and `SiloOptions.SiloNetworkIpPortOption.SetSiloPort` |
| `SiloOptions.SiloNetworkIpPort.WithGatewayPort` | src/UrlShortener.Infra.Silo/Options/SiloNetworkIpPortOption.cs:41 | no contract of its own: the option after assigning `GatewayPort`; see `SettersAndGatewayCoupling` and `SiloOptions.SiloNetworkIpPortOption.SetGatewayPort` |
| `SiloOptions.DisableGatewaySetter` | src/UrlShortener.Infra.Silo/Options/SiloNetworkIpPortOption.cs:22-38 | `DisableGateway` reads back the value assigned; `true` zeroes `GatewayPort`, `false` leaves it; no other property moves; afterwards "disabled implies port 0" holds |
| `SiloOptions.SettersAndGatewayCoupling` | src/UrlShortener.Infra.Silo/Options/SiloNetworkIpPortOption.cs:15-41 | every setter except `GatewayPort` keeps "disabled implies port 0"; assigning `GatewayPort` keeps it exactly when the gateway is enabled or the port is 0, and leaves `DisableGateway` alone |
| `SiloOptions.GatewayCouplingOnlyPartlyMaintained` | src/UrlShortener.Infra.Silo/Options/SiloNetworkIpPortOption.cs:7-41 | the coupling holds for a new option and fails after one `GatewayPort = 30000` |
| `SiloOptions.SiloNetworkIpPortOption.constructor` | src/UrlShortener.Infra.Silo/Options/SiloNetworkIpPortOption.cs:7-13 | a new option has address `Any`, both ports 0, the gateway disabled and `ListenOnAnyHostAddress` false |
| `SiloOptions.SiloNetworkIpPortOption.SetSiloIpAddress` | src/UrlShortener.Infra.Silo/Options/SiloNetworkIpPortOption.cs:15 | only the address changes |
| `SiloOptions.SiloNetworkIpPortOption.SetListenOnAnyHostAddress` | src/UrlShortener.Infra.Silo/Options/SiloNetworkIpPortOption.cs:17-20 | only the flag changes |
| `SiloOptions.SiloNetworkIpPortOption.SetDisableGateway` | src/UrlShortener.Infra.Silo/Options/SiloNetworkIpPortOption.cs:29-37 | the backing field takes the value; `true` also zeroes `GatewayPort`, `false` leaves it |
| `SiloOptions.SiloNetworkIpPortOption.SetSiloPort` | src/UrlShortener.Infra.Silo/Options/SiloNetworkIpPortOption.cs:40 | only the silo port changes |
| `SiloOptions.SiloNetworkIpPortOption.SetGatewayPort` | src/UrlShortener.Infra.Silo/Options/SiloNetworkIpPortOption.cs:41 | only the gateway port changes; `DisableGateway` is untouched |
| `SiloOptions.GatewayCouplingOnObject` | src/UrlShortener.Infra.Silo/Options/SiloNetworkIpPortOption.cs:22-41 | on the object, assigning `GatewayPort = 11111`, then `DisableGateway = true`, then `GatewayPort = 30000` ends disabled with port 30000 |
| `SiloNetworkIpPortOptionHelper.HasAzureWebAppSiloNetworkIpPortOption` | src/UrlShortener.Infra.Silo/SiloNetworkIpPortOptionHelper.cs:15-30 | an option exists exactly when the IP is set and parses, the ports split on `,` into at least two entries, and the first two parse as ints; it then holds that IP, the first entry as silo port and the second as gateway port, `DisableGateway` true and `ListenOnAnyHostAddress` false |
| `SiloNetworkIpPortOptionHelper.ExtraPortsIgnored` | src/UrlShortener.Infra.Silo/SiloNetworkIpPortOptionHelper.cs:16-19 | port entries after the second do not change the result |
| `SiloNetworkIpPortOptionHelper.FewerThanTwoPortsFail` | src/UrlShortener.Infra.Silo/SiloNetworkIpPortOptionHelper.cs:16-17 | an unset ports variable, the empty string, or any value without a comma gives no option |
| `SiloNetworkIpPortOptionHelper.BadAddressFails` | src/UrlShortener.Infra.Silo/SiloNetworkIpPortOptionHelper.cs:17 | an unset or unparseable IP gives no option whatever the ports |
| `SiloNetworkIpPortOptionHelper.TwoPortsAreRead` | src/UrlShortener.Infra.Silo/SiloNetworkIpPortOptionHelper.cs:17-25 | a parseable IP and two written-out ports give an option with exactly those ports; the gateway stays disabled, so the coupling holds only for gateway port 0 |
| `ClusterOptionsHelper.CreateClusterOptions` | src/UrlShortener.Infra.Silo/ClusterOptionsHelper.cs:9-32 | `ServiceId` is always the argument, and `ClusterId` always starts with the prefix |
| `ClusterOptionsHelper.WindowsUsesDeploymentId` | src/UrlShortener.Infra.Silo/ClusterOptionsHelper.cs:13-17 | on Windows with a non-empty `WEBSITE_DEPLOYMENT_ID`, `ClusterId` is the prefix plus that id, whatever the Linux variable holds |
| `ClusterOptionsHelper.LinuxUsesSiteName` | src/UrlShortener.Infra.Silo/ClusterOptionsHelper.cs:20-24 | on Linux with a non-empty `WEBSITE_SITE_NAME`, `ClusterId` is the prefix plus that name, whatever the Windows variable holds |
| `ClusterOptionsHelper.SingleSlotFallback` | src/UrlShortener.Infra.Silo/ClusterOptionsHelper.cs:13-29 | when the platform's own variable is unset or empty, or the OS is neither, the slot part is `single-slot`; an empty value behaves as an unset one |
| `ClusterOptionsHelper.OtherPlatformVariableIgnored` | src/UrlShortener.Infra.Silo/ClusterOptionsHelper.cs:13-24 | on Windows the Linux variable is ignored, on Linux the Windows one, and on any other OS both are |
| `ClusterOptionsHelper.SlotNameChoice` | src/UrlShortener.Infra.Silo/ClusterOptionsHelper.cs:11-29 | the text after the prefix is the platform variable's value when set and non-empty, otherwise `single-slot` |
| `ContainerRunHelper.IsRunningInContainer` | src/UrlShortener.Infra.Silo/ContainerRunHelper.cs:11-14 | no contract of its own: the variable, trimmed and lower-cased, reads `true`; see `IsRunningInContainerExactly` and `OtherValuesAreNotContainers` |
| `ContainerRunHelper.PaddedTrueSetsFlag` | src/UrlShortener.Infra.Silo/ContainerRunHelper.cs:13 | "true" in any case with white space around it sets the flag, as ` TRUE ` does |
| `ContainerRunHelper.FlagMeansPaddedTrue` | src/UrlShortener.Infra.Silo/ContainerRunHelper.cs:13 | when the flag is set, the variable is "true" in some case with only white space around it |
| `ContainerRunHelper.PaddedSplitSetsFlag` | src/UrlShortener.Infra.Silo/ContainerRunHelper.cs:13 | any split of the variable into white space, "true" in any case and white space sets the flag |
| `ContainerRunHelper.IsRunningInContainerExactly` | src/UrlShortener.Infra.Silo/ContainerRunHelper.cs:11-14 | the flag is set if and only if the variable is "true", in any case, surrounded only by white space |
| `ContainerRunHelper.LowerOfTrueInAnyCase` | src/UrlShortener.Infra.Silo/ContainerRunHelper.cs:13 | lower-casing gives "true" exactly for "true" written in any mix of cases |
| `ContainerRunHelper.UnpaddedOtherValueNotContainer` | src/UrlShortener.Infra.Silo/ContainerRunHelper.cs:13 | a value with no white space at either end that is not "true" in some case leaves the flag clear |
| `ContainerRunHelper.OtherValuesAreNotContainers` | src/UrlShortener.Infra.Silo/ContainerRunHelper.cs:13 | an unset variable, `1`, `yes` and `false` leave the flag clear |
| `ContainerRunHelper.FirstInterNetwork` | src/UrlShortener.Infra.Silo/ContainerRunHelper.cs:16-20 | the result is absent exactly when the list has no IPv4 entry; otherwise it is an IPv4 entry of the list with no IPv4 entry before it |
| `SiloHost.ChooseClustering` | src/UrlShortener.Backend.SiloHost/Program.cs:99-107 | table clustering exactly when the service URL is non-empty, even in Development; local single silo exactly when it is empty in Development; otherwise none |
| `SiloHost.ResolveClusterOptions` | src/UrlShortener.Backend.SiloHost/Program.cs:108-113 | both configured parts are kept when both are non-empty; otherwise both become `cluster-single-slot` / `OrleansUrlShortener`; the result never has an empty part |
| `SiloHost.ParseIp` | src/UrlShortener.Backend.SiloHost/Program.cs:131 | `IPAddress.Parse` returns the parsed address, or throws a format error; the model tags that failure with the text it tried, which .NET's fixed exception message does not include |
| `SiloHost.ResolveSiloIp` | src/UrlShortener.Backend.SiloHost/Program.cs:125-145 | no contract of its own: the address priority chain; see `SiloIpPriority` and `SiloIpProvenance` |
| `SiloHost.ConfigureSilo` | src/UrlShortener.Backend.SiloHost/Program.cs:99-153 | no contract of its own: the whole `UseOrleans` callback; see `MissingPortsFailFirst`, `ConfiguredSiloShape`, `ExtraExposedPortsIgnored` and `NoContainerAddressKeepsLoopback` |
| `SiloHost.OneMissingPartReplacesBoth` | src/UrlShortener.Backend.SiloHost/Program.cs:109-112 | a configured cluster id is dropped when the service id is missing |
| `SiloHost.MissingPortsFailFirst` | src/UrlShortener.Backend.SiloHost/Program.cs:116-121 | a missing exposed-ports list, or one with fewer than two entries, throws `InvalidOperationException` whatever the other inputs, Development and malformed addresses included |
| `SiloHost.ConfiguredSiloShape` | src/UrlShortener.Backend.SiloHost/Program.cs:99-153 | with two ports, startup fails exactly when the chosen address variable does not parse; otherwise the option carries the address `ResolveSiloIp` picked, listens on any address, takes the first and second ports, keeps the gateway disabled, and goes with the chosen clustering and identity |
| `SiloHost.ExtraExposedPortsIgnored` | src/UrlShortener.Backend.SiloHost/Program.cs:151-152 | ports after the second do not change the outcome |
| `SiloHost.SiloIpPriority` | src/UrlShortener.Backend.SiloHost/Program.cs:125-145 | a set vnet variable alone decides the address; then the node variable; the DNS list is consulted only in a container; loopback otherwise |
| `SiloHost.SiloIpProvenance` | src/UrlShortener.Backend.SiloHost/Program.cs:125-145 | a resolved address is the parsed vnet value, the parsed node value, an IPv4 entry of the host's list in a container, or loopback; a failure comes from a set address variable that did not parse, and the model tags it with that variable's text |
| `SiloHost.NoContainerAddressKeepsLoopback` | src/UrlShortener.Backend.SiloHost/Program.cs:138-145 | with no address variables and no IPv4 entry in the host's list, startup succeeds with loopback |

## Left out

- Orleans runtime behaviour is not modelled. This covers grain activation and deactivation, placement, call serialisation per key, membership, and loading state on activation. It is framework code outside the repository. A grain is modelled as one object with one key.
- `WriteStateAsync` is a synchronous assignment to the persisted copy. Storage failures, retries and the `Task` plumbing are not modelled.
- Environment variables, `OperatingSystem.IsWindows`/`IsLinux`, `Dns.GetHostEntry`, `IHostEnvironment.IsDevelopment` and configuration binding are not modelled. Their results are parameters.
- The model does not know the defaults Orleans' own `ClusterOptions` gives to unbound properties. The host's fallback is modelled over the values as bound.
- `IPAddress.Parse`/`TryParse` are not modelled. They are a function parameter. The `FormatException` that `Parse` throws is modelled as `IpAddressFormat(text)`, tagged with the text tried; its .NET message is not modelled.
- `StartsWith(string)` and `ToLower()` use the current culture. The model uses an ordinal prefix test and ASCII lower-casing, so culture-specific cases such as the Turkish dotless i are not modelled.
- `char.IsWhiteSpace` is the fixed set of Unicode white-space code points. Strings are sequences of Unicode scalar values, not UTF-16 units: a character outside the BMP is one element, and an unpaired surrogate cannot occur. No modelled operation depends on the difference, because every prefix length and slice offset in `Normalize` is ASCII and every `char.IsWhiteSpace` character is in the BMP.
- `int.TryParse` is decimal only, with the integer number style. Culture-specific signs and trailing NUL characters are not modelled.
- `SiloHost.ResolveSiloIp` and `SiloHost.ConfigureSilo` carry no contract of their own. `SiloIpPriority` and `SiloIpProvenance` state the address chain; `ConfiguredSiloShape` ties the option's address to it and states the rest of a successful setup; `MissingPortsFailFirst` states the failure before it.
- Logging, Application Insights, dashboard registration, app-configuration sources and grain-storage setup are not modelled. Neither are `Program.cs` outside lines 99-153 or the thin builder extensions (`ConfigureSiloExtensions`, `ConfigGrainStorageExtensions`, `AzureAppServiceRunningExtensions`). They hand values to libraries and make no decision worth proving.
- The health checks and the front end are not modelled. They are concurrency, remote calls, HTTP routing and random tokens, outside the core.
