# Freebox discovery and GroupePSA Connect client, modelled in Dafny

This project models two pieces of openHAB bindings.

**Freebox discovery service.** A discovery service that runs behind a Freebox server.
- It has four toggles: the wired phone, net devices, net interfaces and AirPlay receivers.
- A new service has all four on; `applyConfig` overwrites a toggle whose key the configuration holds with a non-null value.
- On each data snapshot (`onDataFetched`) it hands discovery results to the inbox, in order:
  1. The wired phone.
  2. Each LAN host with a non-empty MAC, as a net device, followed by each of its layer-3 connectivities with a non-empty address, as a net interface.
  3. Each AirPlay receiver with a non-empty name and video capability exactly `TRUE`.
- Each thing id is its key with every character outside `[A-Za-z0-9_]` replaced by `_`.
- A null bridge yields nothing.

Layout:
- `freebox_discovery.dfy` holds:
  - the snapshot data;
  - the specification function `Discover`;
  - the scan helpers `DiscoverInterfaces`, `DiscoverHost`, `DiscoverHosts` and `DiscoverAirPlay`, each a loop proved against its specification function;
  - the class `DiscoveryService`. Its four toggle fields are updated by `ApplyConfig`. `OnDataFetched` returns the sequence of results handed to `thingDiscovered`.
- `freebox_discovery_properties.dfy` proves what a scan emits:
  - membership, category by category and in both directions;
  - disabled categories;
  - identifier validity;
  - emission order;
  - the phone appearing once;
  - hosts without a MAC being skipped;
  - worked examples.

**GroupePSA Connect REST client.** A client for the GroupePSA Connect REST API (`groupepsa_connect_api.dfy`).
- It classifies response statuses (`checkForError`) and decodes a body only once its status passes (`parseResponse`).
- It reads the user's vehicle list (`getVehicles`).
- It merges the odometer snapshot into the kinetic status snapshot (`getVehicleStatus`).
- It builds every request (`executeRequest`) the same way:
  - HTTP method GET;
  - a ten-second timeout;
  - a `client_id` query parameter;
  - a bearer `Authorization` header (section 2.1 of RFC 6750);
  - an `Accept` header;
  - an `x-introspect-realm` header.

The HTTP client's request object is the class `Request`, updated in place by successive calls.

JSON decoding (Gson) and the network are parameters in both models:
- a decoder is a function from a body to what `fromJson` yields: a value, null, or a `JsonSyntaxException`;
- sending is a function from the request URI to the response.

`wrappers.dfy` holds the `Option`, `Result` and `Outcome` datatypes.

The toggles and the keys are taken as given:
- Thing UIDs are modelled by their bridge and their id segment.
- Property names and configuration keys are enumerations. Their string values come from `FreeboxBindingConstants`, `Thing` and the configuration classes, which are not part of this model.

## Model

All Freebox sources are under `addons/binding/org.openhab.binding.freebox/src/main/java/org/openhab/binding/freebox/internal/discovery/`; all GroupePSA sources are under `bundles/org.openhab.binding.groupepsa/src/main/java/org/openhab/binding/groupepsa/internal/rest/api/`. The table cites full paths.

| member | source | states |
|---|---|---|
| FreeboxDiscovery.Sanitize | addons/binding/org.openhab.binding.freebox/src/main/java/org/openhab/binding/freebox/internal/discovery/FreeboxDiscoveryService.java:150 | same length as the key; each character is kept when it is in `[A-Za-z0-9_]`, else it becomes `_` |
| FreeboxDiscovery.DeviceLabel | addons/binding/org.openhab.binding.freebox/src/main/java/org/openhab/binding/freebox/internal/discovery/FreeboxDiscoveryService.java:152-154 | the primary name when it is not empty, else "Freebox Network Device " followed by the MAC |
| FreeboxDiscovery.InterfaceLabel | addons/binding/org.openhab.binding.freebox/src/main/java/org/openhab/binding/freebox/internal/discovery/FreeboxDiscoveryService.java:174-177 | the address, followed by " (primary name)" exactly when the primary name is not empty |
| FreeboxDiscovery.VendorProperty | addons/binding/org.openhab.binding.freebox/src/main/java/org/openhab/binding/freebox/internal/discovery/FreeboxDiscoveryService.java:156-159 | the vendor property is present exactly when the vendor name is not empty, and then holds it; no other key |
| FreeboxDiscovery.DiscoverInterfaces | addons/binding/org.openhab.binding.freebox/src/main/java/org/openhab/binding/freebox/internal/discovery/FreeboxDiscoveryService.java:168-188 | the loop over a host's connectivities emits exactly the interface results of the specification, in list order, skipping empty addresses |
| FreeboxDiscovery.DiscoverHost | addons/binding/org.openhab.binding.freebox/src/main/java/org/openhab/binding/freebox/internal/discovery/FreeboxDiscoveryService.java:147-190 | one host emits its device (when that toggle is on) then its interfaces (when that toggle is on and the list is not null); nothing when its MAC is empty |
| FreeboxDiscovery.DiscoverHosts | addons/binding/org.openhab.binding.freebox/src/main/java/org/openhab/binding/freebox/internal/discovery/FreeboxDiscoveryService.java:146-191 | the host loop emits each host's results, host after host |
| FreeboxDiscovery.DiscoverAirPlay | addons/binding/org.openhab.binding.freebox/src/main/java/org/openhab/binding/freebox/internal/discovery/FreeboxDiscoveryService.java:196-213 | the receiver loop emits exactly the pushable receivers' results, in list order |
| FreeboxDiscovery.DiscoveryService.constructor | addons/binding/org.openhab.binding.freebox/src/main/java/org/openhab/binding/freebox/internal/discovery/FreeboxDiscoveryService.java:63-70 | a new service has all four toggles on |
| FreeboxDiscovery.DiscoveryService.ApplyConfig | addons/binding/org.openhab.binding.freebox/src/main/java/org/openhab/binding/freebox/internal/discovery/FreeboxDiscoveryService.java:86-104 | each toggle takes its key's value when the map and the value are not null, else it keeps its old value |
| FreeboxDiscovery.DiscoveryService.OnDataFetched | addons/binding/org.openhab.binding.freebox/src/main/java/org/openhab/binding/freebox/internal/discovery/FreeboxDiscoveryService.java:127-215 | the results handed to the inbox are exactly `Discover` of the current toggles and the snapshot |
| FreeboxDiscoveryProperties.ConfiguredOverrides | addons/binding/org.openhab.binding.freebox/src/main/java/org/openhab/binding/freebox/internal/discovery/FreeboxDiscoveryService.java:86-104 | a configured value wins whatever the prior value; an absent key or a null map keeps the prior value; applying a configuration twice is applying it once |
| FreeboxDiscoveryProperties.SanitizeYieldsUid | addons/binding/org.openhab.binding.freebox/src/main/java/org/openhab/binding/freebox/internal/discovery/FreeboxDiscoveryService.java:150 | every sanitised key is made only of UID characters |
| FreeboxDiscoveryProperties.SanitizeKeepsUid | addons/binding/org.openhab.binding.freebox/src/main/java/org/openhab/binding/freebox/internal/discovery/FreeboxDiscoveryService.java:150 | a key already made of UID characters is its own id |
| FreeboxDiscoveryProperties.SanitizeIdempotent | addons/binding/org.openhab.binding.freebox/src/main/java/org/openhab/binding/freebox/internal/discovery/FreeboxDiscoveryService.java:150 | sanitising an id again leaves it unchanged |
| FreeboxDiscoveryProperties.SanitizeInjectiveOnUids | addons/binding/org.openhab.binding.freebox/src/main/java/org/openhab/binding/freebox/internal/discovery/FreeboxDiscoveryService.java:150 | two different keys made of UID characters get different ids |
| FreeboxDiscoveryProperties.SanitizeNotInjective | addons/binding/org.openhab.binding.freebox/src/main/java/org/openhab/binding/freebox/internal/discovery/FreeboxDiscoveryService.java:150 | two different keys ("a:b" and "a-b") can get the same id |
| FreeboxDiscoveryProperties.PhoneResultShape | addons/binding/org.openhab.binding.freebox/src/main/java/org/openhab/binding/freebox/internal/discovery/FreeboxDiscoveryService.java:137-140 | the phone result has id "wired", label "Wired phone", the bridge, and no property |
| FreeboxDiscoveryProperties.NetDeviceResultShape | addons/binding/org.openhab.binding.freebox/src/main/java/org/openhab/binding/freebox/internal/discovery/FreeboxDiscoveryService.java:150-162 | a device's id is its sanitised MAC (a valid UID); its label is the primary name or the placeholder; it always carries the MAC, and the vendor exactly when that is not empty; no other property |
| FreeboxDiscoveryProperties.NetInterfaceResultShape | addons/binding/org.openhab.binding.freebox/src/main/java/org/openhab/binding/freebox/internal/discovery/FreeboxDiscoveryService.java:171-185 | an interface's id is its sanitised address (a valid UID); its label is the address with the primary name in parentheses when there is one; it always carries the address, and the vendor exactly when that is not empty |
| FreeboxDiscoveryProperties.AirPlayResultShape | addons/binding/org.openhab.binding.freebox/src/main/java/org/openhab/binding/freebox/internal/discovery/FreeboxDiscoveryService.java:204-210 | a receiver's id is its sanitised name; its label is the name followed by " (AirPlay)"; its only property is the name |
| FreeboxDiscoveryProperties.InterfaceResultsMembers | addons/binding/org.openhab.binding.freebox/src/main/java/org/openhab/binding/freebox/internal/discovery/FreeboxDiscoveryService.java:168-188 | a result is among a host's interface results if and only if it is built from one of its connectivities with a non-empty address |
| FreeboxDiscoveryProperties.HostResultsMembers | addons/binding/org.openhab.binding.freebox/src/main/java/org/openhab/binding/freebox/internal/discovery/FreeboxDiscoveryService.java:147-190 | a host's device result appears if and only if the device toggle is on and the MAC is not empty; its interface results appear if and only if the interface toggle is on, the MAC is not empty and the list is not null; nothing else |
| FreeboxDiscoveryProperties.HostsResultsKinds | addons/binding/org.openhab.binding.freebox/src/main/java/org/openhab/binding/freebox/internal/discovery/FreeboxDiscoveryService.java:144-192 | the host loop emits only net devices and net interfaces |
| FreeboxDiscoveryProperties.HostsResultsDevices | addons/binding/org.openhab.binding.freebox/src/main/java/org/openhab/binding/freebox/internal/discovery/FreeboxDiscoveryService.java:146-164 | a device result is emitted if and only if the toggle is on and it is the device of some host with a non-empty MAC |
| FreeboxDiscoveryProperties.HostsResultsInterfaces | addons/binding/org.openhab.binding.freebox/src/main/java/org/openhab/binding/freebox/internal/discovery/FreeboxDiscoveryService.java:146-189 | an interface result is emitted if and only if the toggle is on and it is built from some connectivity of some host with a non-empty MAC |
| FreeboxDiscoveryProperties.AirPlayResultsMembers | addons/binding/org.openhab.binding.freebox/src/main/java/org/openhab/binding/freebox/internal/discovery/FreeboxDiscoveryService.java:196-213 | a receiver result is emitted if and only if it is built from a receiver with a non-empty name and video capability exactly true |
| FreeboxDiscoveryProperties.NullBridgeDiscoversNothing | addons/binding/org.openhab.binding.freebox/src/main/java/org/openhab/binding/freebox/internal/discovery/FreeboxDiscoveryService.java:128-130 | a null bridge yields no result, whatever the toggles and the snapshot |
| FreeboxDiscoveryProperties.PhoneDiscoveredOnce | addons/binding/org.openhab.binding.freebox/src/main/java/org/openhab/binding/freebox/internal/discovery/FreeboxDiscoveryService.java:135-142 | with the phone toggle on, the first result is the wired phone and no other result is a phone; with it off there is no phone |
| FreeboxDiscoveryProperties.DiscoverMembers | addons/binding/org.openhab.binding.freebox/src/main/java/org/openhab/binding/freebox/internal/discovery/FreeboxDiscoveryService.java:127-215 | every result carries the bridge; for each category, a result is emitted if and only if the bridge, the input list and the toggle are present and the result is built from an eligible input |
| FreeboxDiscoveryProperties.DisabledCategoryDiscoversNothing | addons/binding/org.openhab.binding.freebox/src/main/java/org/openhab/binding/freebox/internal/discovery/FreeboxDiscoveryService.java:135-194 | a category whose toggle is off contributes no result, whatever the input size |
| FreeboxDiscoveryProperties.DiscoveredIdsAreUids | addons/binding/org.openhab.binding.freebox/src/main/java/org/openhab/binding/freebox/internal/discovery/FreeboxDiscoveryService.java:137-204 | every emitted id is made only of UID characters |
| FreeboxDiscoveryProperties.RankedRunsOrdered | addons/binding/org.openhab.binding.freebox/src/main/java/org/openhab/binding/freebox/internal/discovery/FreeboxDiscoveryService.java:135-214 | a run of phones, then a run of LAN results, then a run of receivers is ordered by category |
| FreeboxDiscoveryProperties.DiscoverOrder | addons/binding/org.openhab.binding.freebox/src/main/java/org/openhab/binding/freebox/internal/discovery/FreeboxDiscoveryService.java:135-214 | the phone comes before every LAN result, and every LAN result before every AirPlay result |
| FreeboxDiscoveryProperties.HostsResultsSnoc | addons/binding/org.openhab.binding.freebox/src/main/java/org/openhab/binding/freebox/internal/discovery/FreeboxDiscoveryService.java:146-191 | appending a host to the list appends its results |
| FreeboxDiscoveryProperties.HostsResultsAppend | addons/binding/org.openhab.binding.freebox/src/main/java/org/openhab/binding/freebox/internal/discovery/FreeboxDiscoveryService.java:146-191 | the results of two concatenated host lists are the concatenation of their results: hosts are handled independently |
| FreeboxDiscoveryProperties.HostWithoutMacIgnored | addons/binding/org.openhab.binding.freebox/src/main/java/org/openhab/binding/freebox/internal/discovery/FreeboxDiscoveryService.java:147-148 | removing a host whose MAC is null or empty from the list changes nothing |
| FreeboxDiscoveryProperties.SanitizeMacExample | addons/binding/org.openhab.binding.freebox/src/main/java/org/openhab/binding/freebox/internal/discovery/FreeboxDiscoveryService.java:150 | "AA:BB:CC:DD:EE:FF" gives the id "AA_BB_CC_DD_EE_FF" |
| FreeboxDiscoveryProperties.NetDeviceExample | addons/binding/org.openhab.binding.freebox/src/main/java/org/openhab/binding/freebox/internal/discovery/FreeboxDiscoveryService.java:149-163 | a host with that MAC and an empty primary name yields exactly one device, with the placeholder label and the MAC property |
| FreeboxDiscoveryProperties.AirPlayExample | addons/binding/org.openhab.binding.freebox/src/main/java/org/openhab/binding/freebox/internal/discovery/FreeboxDiscoveryService.java:196-213 | a video-capable "LivingRoomTV" yields "LivingRoomTV (AirPlay)"; the same receiver without video capability yields nothing |
| GroupePSA.ErrorMessage | bundles/org.openhab.binding.groupepsa/src/main/java/org/openhab/binding/groupepsa/internal/rest/api/GroupePSAConnectApi.java:157-160 | the error object's message, or "Unknown" when the object or its message is null |
| GroupePSA.CheckForError | bundles/org.openhab.binding.groupepsa/src/main/java/org/openhab/binding/groupepsa/internal/rest/api/GroupePSAConnectApi.java:150-170 | passes if and only if the status is 2xx; raises an authorization failure with the body if and only if the status is 401 or 403; a 404 with a decodable body raises a communication error with the object's message; a 404 with a malformed body lets the syntax exception escape (and only a 404 does); any other status raises a communication error with the body; never a malformed-body failure |
| GroupePSA.ParseResponse | bundles/org.openhab.binding.groupepsa/src/main/java/org/openhab/binding/groupepsa/internal/rest/api/GroupePSAConnectApi.java:172-183 | a value if and only if the status is 2xx and the body decodes, and then exactly the decoded value (null included); an error status gives `checkForError`'s failure; a syntax error in a 2xx body, and only that, becomes a malformed-body failure |
| GroupePSA.StatusCheckedBeforeDecoding | bundles/org.openhab.binding.groupepsa/src/main/java/org/openhab/binding/groupepsa/internal/rest/api/GroupePSAConnectApi.java:174-179 | for an error status the outcome is a failure and does not depend on the decoder of the expected type |
| GroupePSA.GetVehicles | bundles/org.openhab.binding.groupepsa/src/main/java/org/openhab/binding/groupepsa/internal/rest/api/GroupePSAConnectApi.java:185-197 | a non-null list is the decoded user's list of a 2xx response to `/user`; a decoded non-null user yields its list (null when the list is null); it fails exactly when parsing fails, with the same failure |
| GroupePSA.GetVehicleStatus | bundles/org.openhab.binding.groupepsa/src/main/java/org/openhab/binding/groupepsa/internal/rest/api/GroupePSAConnectApi.java:199-212 | a failure of the odometer request, then of the kinetic request, is propagated; with both snapshots present the result is the kinetic snapshot with the odometer snapshot's odometer; otherwise the odometer snapshot; a returned odometer always comes from the odometer snapshot |
| GroupePSA.BearerToken | bundles/org.openhab.binding.groupepsa/src/main/java/org/openhab/binding/groupepsa/internal/rest/api/GroupePSAConnectApi.java:130 | a token read from a header value is one whose bearer credentials are that value |
| GroupePSA.BearerRoundTrip | bundles/org.openhab.binding.groupepsa/src/main/java/org/openhab/binding/groupepsa/internal/rest/api/GroupePSAConnectApi.java:130 | the token sent in the Authorization header is read back from it unchanged |
| GroupePSA.HeaderValue | bundles/org.openhab.binding.groupepsa/src/main/java/org/openhab/binding/groupepsa/internal/rest/api/GroupePSAConnectApi.java:130-132 | no value if and only if no header has the name; a value is that of the first header with the name: no earlier header has it |
| GroupePSA.HeaderValueAppend | bundles/org.openhab.binding.groupepsa/src/main/java/org/openhab/binding/groupepsa/internal/rest/api/GroupePSAConnectApi.java:130-132 | headers appended after others are found by name exactly when no earlier header has that name |
| GroupePSA.Request.constructor | bundles/org.openhab.binding.groupepsa/src/main/java/org/openhab/binding/groupepsa/internal/rest/api/GroupePSAConnectApi.java:122 | a new request for the URI is a GET without timeout, holding the URI's query parameters and the client's default headers as given |
| GroupePSA.Request.Timeout | bundles/org.openhab.binding.groupepsa/src/main/java/org/openhab/binding/groupepsa/internal/rest/api/GroupePSAConnectApi.java:126 | sets the timeout in milliseconds and nothing else |
| GroupePSA.Request.Param | bundles/org.openhab.binding.groupepsa/src/main/java/org/openhab/binding/groupepsa/internal/rest/api/GroupePSAConnectApi.java:128 | appends one query parameter and changes nothing else |
| GroupePSA.Request.Header | bundles/org.openhab.binding.groupepsa/src/main/java/org/openhab/binding/groupepsa/internal/rest/api/GroupePSAConnectApi.java:130-132 | appends one header and changes nothing else |
| GroupePSA.Request.Method | bundles/org.openhab.binding.groupepsa/src/main/java/org/openhab/binding/groupepsa/internal/rest/api/GroupePSAConnectApi.java:134 | sets the HTTP method and nothing else |
| GroupePSA.ConnectApi.constructor | bundles/org.openhab.binding.groupepsa/src/main/java/org/openhab/binding/groupepsa/internal/rest/api/GroupePSAConnectApi.java:71-75 | the client keeps its client id and realm |
| GroupePSA.ConnectApi.ExecuteRequest | bundles/org.openhab.binding.groupepsa/src/main/java/org/openhab/binding/groupepsa/internal/rest/api/GroupePSAConnectApi.java:119-134 | the client's request becomes a GET with a ten-second timeout; `client_id` is appended after the parameters it already held, and the headers Authorization "Bearer token", Accept and x-introspect-realm, in that order, after its headers; each of the three is found by name with the value set here unless the earlier headers already name it |
| GroupePSA.ConnectApi.ExecuteHalRequest | bundles/org.openhab.binding.groupepsa/src/main/java/org/openhab/binding/groupepsa/internal/rest/api/GroupePSAConnectApi.java:115-117 | the same preparation with Accept "application/hal+json" |

## Left out

- The Freebox bridge handler is not part of this model. This covers `activate` and `deactivate` (listener registration), `startScan` (the online check and the fetch of both inventories), and logging. The snapshot reaches `OnDataFetched` as its arguments.
  - Because `startScan` fetches both inventories before handing them over, a failure to fetch either inventory skips the whole `onDataFetched` call: that scan emits nothing, the wired phone and the host results included. This is not modelled.
- `thingDiscovered` is the inbox's business. Merging results with an already known id is not modelled; `OnDataFetched` returns the results in the order they are handed over.
- Null elements inside the host list, the connectivity list or the receiver list are not modelled; the code would throw a `NullPointerException` on them. A null `getConfig()` list inside a non-null host configuration is not modelled either.
- A configuration value that is not a `Boolean` makes `applyConfig` throw a `ClassCastException`. The model types configuration values as nullable Booleans. Keys other than the four toggles are ignored by the code; the model has no such keys.
- FreeboxDiscovery.Sanitize: strings are sequences of Unicode scalar values, and so is the length it keeps. Java's regular expression replaces a supplementary character by one `_` too, but Java's `String.length()` counts UTF-16 code units: such a character has length 2 in Java and its `_` length 1, while here both have length 1. Lone surrogates, which a Java string may hold, cannot be represented.
- Identifiers of distinct keys: distinct keys get distinct identifiers only when they are already made of UID characters (`SanitizeInjectiveOnUids`). MACs and IP addresses contain separators, and the code maps "a:b" and "a-b" to the same id (`SanitizeNotInjective`). The model follows the code.
- The validation a `ThingUID` applies to its segments is not modelled; ids are proved to consist of UID characters only.
- The GroupePSA bridge's `authenticate` and the HTTP client's `newRequest` and `send` are not part of this model. The token is an argument of `ExecuteRequest`, and so is the request `newRequest` created; the response for a URI is a function argument of `GetVehicles` and `GetVehicleStatus`.
  - What `newRequest` puts into a new request is not modelled: the query parameters parsed from the URI (such as `extension=odometer`) and the client's default headers (such as User-Agent and Accept-Encoding) are whatever the `Request` constructor is given, and `ExecuteRequest` states its effect relative to them.
- GroupePSA.HeaderValue: compares header names exactly, while HTTP field names are case-insensitive (section 5.1 of RFC 9110). The names `ExecuteRequest` adds are fixed, so only a default header differing in case from them would be missed.
  - The exceptions `send` can raise (`InterruptedException`, `TimeoutException` and `ExecutionException`, each wrapped into a communication exception) are not modelled: `send` always yields a response.
  - The request trace logging is left out.
- JSON decoding with Gson is a function argument: a value, null, or a syntax error. The type adapters for `ZonedDateTime`, `Duration` and GeoJSON geometry, and `getResourceFileAsString`, are left out.
- GroupePSA.GetVehicleStatus: `setOdemeter` mutates the decoded kinetic object. Since that object is fresh and not shared, the model replaces it by a value with the odometer field updated.
- The DTO classes (`Properties`, `Health` and the other vehicle status fields) are opaque type parameters. `GroupePSAHandlerFactory` is not part of this model.
- A 404 response whose body is not valid JSON makes `gson.fromJson` inside `checkForError` throw `JsonSyntaxException`. It is raised outside the `try` of `parseResponse`, so it escapes unwrapped. The model keeps this as the failure `UncheckedJsonSyntax`.
