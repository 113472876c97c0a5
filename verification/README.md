# Hubitat → Homey bridge, modelled in Dafny

A model of the Homey app that brings devices from a Hubitat Elevation hub into Homey over the hub's Maker API.
The app has three parts:

- **App** (`app.js`):
  - classifies each hub device into one of fifteen Homey drivers: thermostat, lock, fan, window covering, button, colour light, tunable-white light, valve, dimmer, switch, and the contact, motion, presence, leak and temperature sensors;
  - lists the devices a driver may pair;
  - builds the Maker API base URL and the command endpoint, and tests the connection;
  - keeps a bounded log for the settings page.
- **Webhook endpoint** (`api.js`): picks the payload out of the request, rejects an incomplete payload, and routes the attribute change to the first paired device whose id matches.
- **Device drivers** (`drivers/*/device.js`):
  - turn Homey capability changes into hub commands;
  - turn hub attribute reports, whether pushed by webhook or fetched by a poll, back into capability values;
  - through a per-attribute command cooldown, ignore the hub's echo of a command for 2000 ms.

## How the model is built

**Modules.** One module per source file, plus shared modules:

| module | what it holds |
|---|---|
| `Js` | the JavaScript values the code handles and the built-ins it relies on (truthiness, `parseInt`, `parseFloat`, `Math.round`, `toString`, `toLowerCase`) |
| `HubClient` | the hub as the drivers see it: a device's attribute list, and a `Hub` object that accepts or refuses every command |
| `Cooldown` | the two forms of the cooldown test that appear in the drivers |
| `Device` | capability maps, and the poll step that every driver repeats |
| `Translators` | the unit conversions: percentages, two Kelvin scales, fan speed names, shade states and on/off words |

**Drivers.** Each driver module has:

- a pure state value and pure webhook and poll functions, which the properties are proved about;
- a class whose fields the listeners and handlers update in place, and whose methods are proved equal to those functions.

**Inputs that become parameters:**

- the clock (`now`, in milliseconds);
- the result of a device fetch (`fetched`, `None` when the request failed);
- whether the hub accepts commands (`Hub.up`).

**Results:**

- A listener that throws returns its error message as `error`.
- A listener that succeeds leaves the capability holding the value Homey passed.

## Model

| member | source | states |
|---|---|---|
| `HubClient.FindAttribute` | drivers/dimmer/device.js:86-94 | `attributes.find` by name: absent exactly when no entry has the name, otherwise the value of the first entry that has it |
| `HubClient.Hub.SendDeviceCommand` | app.js:156-178 | a reachable hub appends the command to what it has accepted and reports no error; an unreachable one accepts nothing and reports its transport error |
| `App.MapDeviceToDriver` | app.js:182-226 | the fifteen-step classification chain; `App.ClassifyIsFirstMatch` states that it picks the first matching rule of the rule table |
| `App.ClassifyIsFirstMatch` | app.js:182-226 | `mapDeviceToDriver` returns the matching rule that comes first in the chain, and null exactly when no rule matches |
| `App.RankInjective` | app.js:189-223 | the fifteen rules have fifteen distinct positions in the chain |
| `App.ColorControlMeansColorLight` | app.js:201-203 | `ColorControl` makes a colour light unless a thermostat, lock, fan, shade or button capability comes first |
| `App.TunableWhiteOnlyWithoutColorControl` | app.js:204-206 | a tunable-white light is exactly a device with `ColorTemperature`, without `ColorControl`, and with no earlier-ranked capability |
| `App.ValveRecognition` | app.js:207-208 | valve iff no earlier rule matches and the device has the `Valve` capability, or its lower-cased type or label-or-name contains "valve" |
| `App.ValveByNameOnly` | app.js:183-186 | missing fields read as empty: a device with no capabilities named "Garden Valve" is a valve |
| `App.RgbBulbIsColorLight` | app.js:201-203 | a bulb with Switch, SwitchLevel and ColorControl classifies as a colour light |
| `App.SelectedMembers` | app.js:234-236 | the pairing filter keeps exactly the devices offered to the driver |
| `App.SelectedAppend` | app.js:234-236 | the filter keeps input order: it distributes over concatenation |
| `App.OfferedUnderOwnTag` | app.js:234-236 | a device is offered under a driver id exactly when it classifies as that driver |
| `App.PairingListSpec` | app.js:231-244 | when every device classified as the driver has an id, the pairing list holds exactly those devices, in input order, each named `label \|\| name` and carrying its id as text; devices of other drivers may lack an id |
| `App.PairingFailures` | app.js:231-244 | the pairing list fails exactly when the fetch failed, passing its error on, or when a device classified as the driver has no id |
| `App.GetDevicesForDriver` | app.js:231-244 | `getDevicesForDriver`: the fetch error, the TypeError of the first kept device without an id, or the entries; its result is stated by `App.PairingListSpec`, `App.PairingFailures` and `App.MissingIdMessages` |
| `App.MissingIdError` | app.js:236-242 | None exactly when every kept device has an id; otherwise the TypeError of the first device without one, every earlier device having an id |
| `App.ToStringError` | app.js:240 | the TypeError text for `toString` read on an id that is null or undefined |
| `App.MissingIdMessages` | app.js:236-242 | a kept device with a null id fails with "Cannot read properties of null (reading 'toString')", and one with an absent id with the `undefined` text |
| `App.BaseUrl` | app.js:76-87 | succeeds iff IP, app id and token are all truthy, giving `http://<ip>/apps/api/<appId>`; otherwise fails with the configuration error built from the missing settings, of which there is at least one |
| `App.MissingSettings` | app.js:79-83 | lists only names among IP address, App ID and Access Token; each is listed exactly when its setting is falsy; they appear in that fixed order |
| `App.ConfigErrorMessage` | app.js:84 | the thrown text: the fixed prefix followed by the missing settings joined with `, `; its values are stated by `App.TokenMissingMessage` and `App.AllMissingMessage` |
| `App.TokenMissingMessage` | app.js:76-87 | with IP and app id set and an empty token, the error names only `Access Token` |
| `App.AllMissingMessage` | app.js:76-87 | with nothing set, the error names `IP address, App ID, Access Token` in that order |
| `App.CommandEndpoint` | app.js:162-165 | the request path of a command; `App.EndpointSegments` states its segments. The path is modelled apart from the sends: `HubClient.Hub.SendDeviceCommand` records the `Command` value, not its path |
| `App.EndpointSegments` | app.js:162-165 | the command endpoint splits into `devices`, the id, the command and one segment per parameter |
| `App.SegmentsOfJoin` | app.js:164 | parameters joined with `/` split back into the same parameters |
| `App.TestConnection` | app.js:249-256 | the connection test succeeds exactly when the device list could be fetched, and otherwise reports the fetch's error |
| `App.ReplayKeepsNewest` | app.js:58-61 | after any series of `addLog` calls, the log holds the newest `min(n, 100)` entries in order |
| `App.HubitatApp.AddLog` | app.js:48-71 | nothing changes when logging is explicitly disabled; otherwise the entry is appended, the oldest entry is dropped beyond 100, and the settings text is rewritten from the kept log |
| `Api.SelectPayload` | api.js:22-34 | the payload is `body.content` when truthy, else the query when it has a key, else the body |
| `Api.FirstHitUnique` | api.js:62-76 | at most one device is the first match for an id |
| `Api.ProcessWebhook` | api.js:40-87 | an incomplete payload is rejected and echoed back; otherwise the update goes to the first device, in driver then device order, whose id matches, or to none iff no device matches; a handler error becomes the error response |
| `Cooldown.StampOpensWindow` | drivers/fan/device.js:234-240 | a command stamped at `t` suppresses a report `d` ms later iff `d < 2000`, in both forms of the test |
| `Cooldown.StampIsPerKey` | drivers/color-light/device.js:246-253 | stamping one key never changes the verdict for another |
| `Cooldown.FormsAgree` | drivers/dimmer/device.js:109-116 | the two forms agree once the clock is past 2000 ms; before that, the `stamp \|\| 0` form suppresses keys that were never stamped |
| `Cooldown.RecentlyCommanded` | drivers/fan/device.js:234-240 | the `stamp && now - stamp < 2000` test, also at drivers/color-temp-light/device.js:150 and 158 and drivers/window-covering/device.js:118; `Cooldown.StampOpensWindow`, `Cooldown.StampIsPerKey` and `Cooldown.FormsAgree` state it |
| `Cooldown.WithinCooldown` | drivers/dimmer/device.js:110-113 | the `now - (stamp \|\| 0) < 2000` test, also at drivers/color-light/device.js:247-250; `Cooldown.StampOpensWindow`, `Cooldown.StampIsPerKey` and `Cooldown.FormsAgree` state it |
| `Device.PollSingle` | drivers/dimmer/device.js:79-99 | a poll whose fetch returns one attribute the driver reads writes exactly what that attribute's report writes |
| `Device.PollFromMissing` | drivers/dimmer/device.js:79-99 | attributes missing from the fetch leave the capabilities alone |
| `Device.PollOfUnrelated` | drivers/dimmer/device.js:79-99 | a fetch holding none of the attributes the driver reads changes nothing |
| `Device.PollFrom` | drivers/dimmer/device.js:79-99 | a poll only writes capabilities and never removes one |
| `Translators.LevelBounds` | drivers/dimmer/device.js:58 | a 0-1 value becomes a 0-100 percentage |
| `Translators.LevelRoundTrip` | drivers/dimmer/device.js:58 | integer percentages survive the trip through the 0-1 domain exactly |
| `Translators.UnitRoundTrip` | drivers/dimmer/device.js:123 | a 0-1 value comes back from the hub within half a percent |
| `Translators.LevelEcho` | drivers/dimmer/device.js:123 | `parseInt(level) / 100` of an echoed percentage is the percentage that was sent, over 100 |
| `Translators.LevelFromUnit` | drivers/dimmer/device.js:58 | the outbound percentage `Math.round(v * 100)`; `Translators.LevelBounds`, `Translators.LevelRoundTrip` and `Translators.LevelEcho` state its range and round trip |
| `Translators.ColorKelvinBounds` | drivers/color-light/device.js:167 | a 0-1 value becomes 2200-6500 K |
| `Translators.ColorKelvinRoundTrip` | drivers/color-light/device.js:223-224 | whole Kelvin values survive the trip exactly |
| `Translators.ColorUnitRoundTrip` | drivers/color-light/device.js:223-224 | a 0-1 value comes back within half a Kelvin step |
| `Translators.ColorUnitFromKelvin` | drivers/color-light/device.js:223-224 | the colour light's unclamped inbound conversion `(k - 2200) / 4300`; `Translators.ColorUnitRoundTrip` and `Translators.ColorUnitUnclamped` state it |
| `Translators.ColorUnitUnclamped` | drivers/color-light/device.js:223-224 | inbound Kelvin outside 2200-6500 leaves the 0-1 range |
| `Translators.ColorKelvinFromUnit` | drivers/color-light/device.js:167 | the colour light's outbound Kelvin value; `Translators.ColorKelvinBounds` and `Translators.ColorKelvinRoundTrip` state its range and round trip |
| `Translators.TunableUnitFromKelvin` | drivers/color-temp-light/device.js:125-129 | inbound Kelvin is clamped into 0-1 |
| `Translators.TunableEndpoints` | drivers/color-temp-light/device.js:79-83 | 0 is 6500 K (cold) and 1 is 2700 K (warm), both ways |
| `Translators.TunableKelvinBounds` | drivers/color-temp-light/device.js:83 | a 0-1 value becomes 2700-6500 K |
| `Translators.TunableKelvinAntitone` | drivers/color-temp-light/device.js:83 | a warmer setting never sends a colder Kelvin value |
| `Translators.TunableKelvinRoundTrip` | drivers/color-temp-light/device.js:125-129 | Kelvin values in 2700-6500 survive the trip exactly |
| `Translators.TunableUnitRoundTrip` | drivers/color-temp-light/device.js:125-129 | a 0-1 value comes back within half a Kelvin step |
| `Translators.TunableKelvinFromUnit` | drivers/color-temp-light/device.js:83 | the tunable-white light's inverted outbound Kelvin value; `Translators.TunableKelvinBounds`, `Translators.TunableKelvinAntitone` and `Translators.TunableKelvinRoundTrip` state its range, direction and round trip |
| `Translators.RestoredSpeed` | drivers/fan/device.js:73-80 | a rung name restores its rung value; any other name restores 0.6 |
| `Translators.RungSpeed` | drivers/fan/device.js:73-79 | the five-rung restore table; `Translators.RestoredSpeed` and `Translators.RungRebuckets` state it |
| `Translators.SpeedNameOff` | drivers/fan/device.js:113-129 | the speed name is `off` exactly for 0 % |
| `Translators.SpeedNameBracket` | drivers/fan/device.js:113-129 | a non-zero percentage names a rung whose value lies at or above it and less than 20 points above |
| `Translators.RungRebuckets` | drivers/fan/device.js:73-80 | every rung value re-buckets to its own name |
| `Translators.SpeedName` | drivers/fan/device.js:113-129 | the fan's speed bucketing; `Translators.SpeedNameOff`, `Translators.SpeedNameBracket` and `Translators.RungRebuckets` state its buckets |
| `Translators.InboundTablesAgreeOnRungs` | drivers/fan/device.js:185-196 | the poll and webhook tables read every outbound rung name as its rung value |
| `Translators.PolledSpeedTable` | drivers/fan/device.js:185-194 | the poll's speed table; `Translators.InboundTablesAgreeOnRungs` and `FanDriver.PolledSpeedDefaults` state it |
| `Translators.WebhookSpeedTable` | drivers/fan/device.js:251-261 | the webhook's speed table; `Translators.InboundTablesAgreeOnRungs` and `FanDriver.WebhookSpeed` state it |
| `Translators.MixedCaseNameRestoresDefault` | drivers/fan/device.js:261-266 | a webhook name is looked up lower-cased but stored raw, so `High` reads as 1.0 yet later restores as 0.6 |
| `Translators.ShadeStateClasses` | drivers/window-covering/device.js:125-131 | opening/open is up, closing/closed is down, and anything else is idle |
| `Translators.ShadeCommandsDistinct` | drivers/window-covering/device.js:37-47 | exactly up, down and idle have a command, and they are three different commands |
| `Translators.ShadeState` | drivers/window-covering/device.js:125-131 | the inbound shade state; `Translators.ShadeStateClasses` states its classes |
| `Translators.ShadeCommand` | drivers/window-covering/device.js:37-47 | the shade command per state; `Translators.ShadeCommandsDistinct` states which states have one |
| `Translators.ActuatorEncodingsRoundTrip` | drivers/switch/device.js:33 | each command word's reported state reads back as the commanded boolean, for the switch, the valve and the lock |
| `FanDriver.RestoreName` | drivers/fan/device.js:61 | the stored speed name when it is non-empty, else `medium` |
| `FanDriver.WebhookSpeed` | drivers/fan/device.js:243-275 | a webhook speed is dropped exactly when it is a name that the lower-cased table does not know |
| `FanDriver.PolledSpeed` | drivers/fan/device.js:177-200 | a polled name reads from the table, and an unknown one as 0.5 |
| `FanDriver.FanWebhook` | drivers/fan/device.js:212-297 | the webhook never stamps, and it keeps the slider within 0-1 (or NaN) |
| `FanDriver.FanPoll` | drivers/fan/device.js:160-207 | the poll touches neither the stamps nor the stored name, and it keeps the slider in range |
| `FanDriver.SpeedEchoWindow` | drivers/fan/device.js:234-240 | a `speed` report `d` ms after a command is dropped iff `d < 2000`, and is otherwise processed |
| `FanDriver.UnknownNameOnlyStored` | drivers/fan/device.js:264-274 | an unknown name changes no capability but has already replaced the stored name |
| `FanDriver.AcceptedReport` | drivers/fan/device.js:277-295 | an accepted report moves the slider only when more than 0.05 away, then stores the clamped value and `onoff = speed > 0` |
| `FanDriver.CurrentSpeed` | drivers/fan/device.js:278 | `getCapabilityValue('fan_speed') \|\| 0`, the reference of the tolerance test; `FanDriver.AcceptedReport` and `FanDriver.ToleranceBoundary` state its use |
| `FanDriver.SpeedReport` | drivers/fan/device.js:258-295 | a `speed` webhook outside the cooldown; `FanDriver.AcceptedReport`, `FanDriver.UnknownNameOnlyStored` and `FanDriver.NaNReportIgnored` state what it writes |
| `FanDriver.StoredName` | drivers/fan/device.js:265-268 | the speed name remembered for turning back on; `FanDriver.AcceptedReport` and `FanDriver.UnknownNameOnlyStored` state that a named report other than off, on and auto replaces it, verbatim |
| `FanDriver.ToleranceBoundary` | drivers/fan/device.js:281-285 | against a slider at 0.5, a 54 % report is within the 0.05 tolerance and is ignored, and a 56 % report is applied with `onoff` on |
| `FanDriver.NaNReportIgnored` | drivers/fan/device.js:282-285 | a NaN report never moves the slider |
| `FanDriver.SwitchGate` | drivers/fan/device.js:218-229 | with a slider away from 0, `on` is ignored and `off` is applied; without a slider, `on` is applied |
| `FanDriver.SwitchApplies` | drivers/fan/device.js:218-229 | whether a `switch` webhook is applied; `FanDriver.SwitchGate` states its cases |
| `FanDriver.PollIgnoresStamps` | drivers/fan/device.js:160-207 | the poll path never reads the cooldown table |
| `FanDriver.PolledSpeedDefaults` | drivers/fan/device.js:185-199 | an unknown polled name reads as 0.5, and a polled number is clamped |
| `FanDriver.SpeedCommandRestores` | drivers/fan/device.js:111-140 | after a speed command, turning on restores a rung at or above the commanded percentage and less than 20 points above it |
| `FanDriver.FanDevice.OnCapabilityOnoff` | drivers/fan/device.js:49-105 | stamps `speed`; sends the stored name or `off`; on success sets `onoff` and the restored slider; a failure is rethrown and changes no capability |
| `FanDriver.FanDevice.OnCapabilityFanSpeed` | drivers/fan/device.js:111-158 | buckets and stamps; remembers the name unless it is `off`, even when the send then fails; sends it; on success sets the slider and `onoff` |
| `FanDriver.FanDevice.PollDeviceState` | drivers/fan/device.js:160-207 | the new state is `FanPoll` of the old |
| `FanDriver.FanDevice.HandleAttributeUpdate` | drivers/fan/device.js:212-297 | the new state is `FanWebhook` of the old |
| `ColorLightDriver.InboundTemperature` | drivers/color-light/device.js:221-225 | inbound Kelvin gives a number, unclamped, or NaN |
| `ColorLightDriver.ModeOf` | drivers/color-light/device.js:227-231 | `CT` is temperature mode and everything else is colour mode |
| `ColorLightDriver.ColorWebhook` | drivers/color-light/device.js:241-288 | a webhook never changes the stamps |
| `ColorLightDriver.ColorPoll` | drivers/color-light/device.js:194-236 | a poll never changes the stamps |
| `ColorLightDriver.CrossStamped` | drivers/color-light/device.js:79-80 | hue and saturation are stamped together, so reports of either are dropped together |
| `ColorLightDriver.UnstampedReportsApplied` | drivers/color-light/device.js:246-279 | past 2000 ms, switch, level, colour temperature and colour mode reports are always applied |
| `ColorLightDriver.IgnoredAttributes` | drivers/color-light/device.js:255-282 | `colorName` and unknown attributes change nothing |
| `ColorLightDriver.InboundTemperatureUnclamped` | drivers/color-light/device.js:272-274 | a 2000 K report leaves the 0-1 range |
| `ColorLightDriver.TemperatureEcho` | drivers/color-light/device.js:164-180 | an echoed Kelvin value reads as the value that was sent |
| `ColorLightDriver.PollAgreesWithWebhook` | drivers/color-light/device.js:194-236 | a poll finding one attribute writes what an unsuppressed webhook would |
| `ColorLightDriver.Reported` | drivers/color-light/device.js:241-288 | writes something exactly for the attributes the poll fetches, so `colorName` and unknown attributes write nothing |
| `ColorLightDriver.ColorLightDevice.OnCapabilityOnoff` | drivers/color-light/device.js:39-54 | sends on/off without a stamp; a failure becomes "Failed to control light" |
| `ColorLightDriver.ColorLightDevice.OnCapabilityDim` | drivers/color-light/device.js:59-72 | sends the percentage without a stamp; a failure becomes "Failed to set light level" |
| `ColorLightDriver.ColorLightDevice.OnCapabilityLightHue` | drivers/color-light/device.js:77-99 | stamps hue and saturation, and replaces the pending change with this hue and the current saturation |
| `ColorLightDriver.ColorLightDevice.OnCapabilityLightSaturation` | drivers/color-light/device.js:104-126 | stamps both, and replaces the pending change with the current hue and this saturation |
| `ColorLightDriver.ColorLightDevice.SetHueSaturation` | drivers/color-light/device.js:131-159 | stamps both; sends `setColor` with the current level; on success switches to colour mode |
| `ColorLightDriver.ColorLightDevice.FireColorTimer` | drivers/color-light/device.js:88-96 | the debounce timer sends the one pending pair, if any, and clears it |
| `ColorLightDriver.ColorLightDevice.OnCapabilityLightTemperature` | drivers/color-light/device.js:164-180 | sends Kelvin without a stamp; on success sets temperature mode |
| `ColorLightDriver.ColorLightDevice.PollDeviceState` | drivers/color-light/device.js:194-236 | the new state is `ColorPoll` of the old |
| `ColorLightDriver.ColorLightDevice.HandleAttributeUpdate` | drivers/color-light/device.js:241-288 | the new state is `ColorWebhook` of the old |
| `ColorTempLightDriver.InboundTemperature` | drivers/color-temp-light/device.js:123-130 | inbound Kelvin gives a value in 0-1, or NaN exactly when `parseInt` fails |
| `ColorTempLightDriver.TunableWebhook` | drivers/color-temp-light/device.js:140-167 | a webhook keeps the stamps and keeps the temperature in range |
| `ColorTempLightDriver.TunablePoll` | drivers/color-temp-light/device.js:102-135 | a poll keeps the stamps and keeps the temperature in range |
| `ColorTempLightDriver.PollKeepsRange` | drivers/color-temp-light/device.js:125-129 | the poll only writes in-range temperatures |
| `ColorTempLightDriver.LevelEchoWindow` | drivers/color-temp-light/device.js:150-153 | a `level` report `d` ms after a dim command is dropped iff `d < 2000` |
| `ColorTempLightDriver.TemperatureEchoWindow` | drivers/color-temp-light/device.js:157-161 | a `colorTemperature` report `d` ms after a temperature command is dropped iff `d < 2000` |
| `ColorTempLightDriver.UnguardedReportsApplied` | drivers/color-temp-light/device.js:140-167 | `switch` is never guarded, and a key never stamped suppresses nothing |
| `ColorTempLightDriver.GuardsAreSeparate` | drivers/color-temp-light/device.js:150-161 | a dim stamp never guards the temperature, and a temperature stamp never guards the level |
| `ColorTempLightDriver.TemperatureEcho` | drivers/color-temp-light/device.js:83-88 | an echoed Kelvin value reads back within half a Kelvin step of the slider |
| `ColorTempLightDriver.PollAgreesWithWebhook` | drivers/color-temp-light/device.js:102-135 | a poll finding one attribute writes what an unsuppressed webhook would |
| `ColorTempLightDriver.Reported` | drivers/color-temp-light/device.js:140-167 | writes something exactly for the attributes the poll fetches |
| `ColorTempLightDriver.ColorTempLightDevice.OnCapabilityOnoff` | drivers/color-temp-light/device.js:36-50 | sends on/off; the error is rethrown as it is |
| `ColorTempLightDriver.ColorTempLightDevice.OnCapabilityDim` | drivers/color-temp-light/device.js:55-71 | stamps `dim` and sends the percentage |
| `ColorTempLightDriver.ColorTempLightDevice.OnCapabilityLightTemperature` | drivers/color-temp-light/device.js:76-97 | stamps `temperature` and sends the inverted Kelvin value |
| `ColorTempLightDriver.ColorTempLightDevice.PollDeviceState` | drivers/color-temp-light/device.js:102-135 | the new state is `TunablePoll` of the old |
| `ColorTempLightDriver.ColorTempLightDevice.HandleAttributeUpdate` | drivers/color-temp-light/device.js:140-167 | the new state is `TunableWebhook` of the old |
| `DimmerDriver.DimmerWebhook` | drivers/dimmer/device.js:104-132 | a webhook never changes the stamps |
| `DimmerDriver.DimmerPoll` | drivers/dimmer/device.js:79-99 | a poll never changes the stamps |
| `DimmerDriver.LevelEchoWindow` | drivers/dimmer/device.js:109-125 | a `level` report `d` ms after a level command is dropped iff `d < 2000` |
| `DimmerDriver.SwitchReportsApplied` | drivers/dimmer/device.js:109-121 | `switch` is never stamped: its reports are dropped before 2000 ms on the clock and always applied after |
| `DimmerDriver.OtherAttributesIgnored` | drivers/dimmer/device.js:126-128 | other attributes change nothing |
| `DimmerDriver.LevelCommandEcho` | drivers/dimmer/device.js:118-125 | an echoed level reads as the percentage that was sent |
| `DimmerDriver.PollAgreesWithWebhook` | drivers/dimmer/device.js:79-99 | a poll finding one attribute writes what an unsuppressed webhook would |
| `DimmerDriver.Reported` | drivers/dimmer/device.js:104-132 | writes something exactly for the attributes the poll fetches |
| `DimmerDriver.DimmerDevice.OnCapabilityOnoff` | drivers/dimmer/device.js:35-51 | sends on/off; a failure becomes "Failed to control dimmer" |
| `DimmerDriver.DimmerDevice.OnCapabilityDim` | drivers/dimmer/device.js:56-74 | stamps `level` and sends the percentage; a failure becomes "Failed to set dimmer level" |
| `DimmerDriver.DimmerDevice.PollDeviceState` | drivers/dimmer/device.js:79-99 | the new state is `DimmerPoll` of the old |
| `DimmerDriver.DimmerDevice.HandleAttributeUpdate` | drivers/dimmer/device.js:104-132 | the new state is `DimmerWebhook` of the old |
| `WindowCoveringDriver.CoveringWebhook` | drivers/window-covering/device.js:113-133 | a webhook never changes the stamps |
| `WindowCoveringDriver.CoveringPoll` | drivers/window-covering/device.js:78-108 | a poll never changes the stamps |
| `WindowCoveringDriver.PositionEchoWindow` | drivers/window-covering/device.js:117-123 | a `position` report `d` ms after a position command is dropped iff `d < 2000` |
| `WindowCoveringDriver.ShadeReportsApplied` | drivers/window-covering/device.js:124-131 | `windowShade` reports are always applied, and they write a state that the state listener has a command for |
| `WindowCoveringDriver.ShadeCommandEcho` | drivers/window-covering/device.js:37-42 | moving up or down and reporting the finished movement gives back the same state |
| `WindowCoveringDriver.PollAgreesWithWebhook` | drivers/window-covering/device.js:78-108 | a poll finding one attribute writes what an unsuppressed webhook would |
| `WindowCoveringDriver.Reported` | drivers/window-covering/device.js:113-133 | writes something exactly for the attributes the poll fetches |
| `WindowCoveringDriver.WindowCoveringDevice.OnCapabilityWindowCoveringsState` | drivers/window-covering/device.js:33-55 | up, down and idle send their command; any other value sends nothing and is accepted; the error is rethrown |
| `WindowCoveringDriver.WindowCoveringDevice.OnCapabilityWindowCoveringsSet` | drivers/window-covering/device.js:60-76 | stamps `position` and sends the percentage |
| `WindowCoveringDriver.WindowCoveringDevice.PollDeviceState` | drivers/window-covering/device.js:78-108 | the new state is `CoveringPoll` of the old |
| `WindowCoveringDriver.WindowCoveringDevice.HandleAttributeUpdate` | drivers/window-covering/device.js:113-133 | the new state is `CoveringWebhook` of the old |
| `ThermostatDriver.Midpoint` | drivers/thermostat/device.js:91 | the average of the two setpoints is equidistant from both, and NaN iff either is |
| `ThermostatDriver.ThermostatPoll` | drivers/thermostat/device.js:64-98 | a failed fetch changes nothing, and a poll never removes a capability |
| `ThermostatDriver.SetpointCommands` | drivers/thermostat/device.js:30-40 | the target listener sends one or two single-parameter setpoint commands to the device |
| `ThermostatDriver.SetpointEcho` | drivers/thermostat/device.js:30-40 | heat sends the heating setpoint, cool sends the cooling setpoint, and any other mode sends heating −1 and cooling +1 |
| `ThermostatDriver.PollWithMode` | drivers/thermostat/device.js:76-93 | the target is derived from the mode the same poll has just written |
| `ThermostatDriver.TargetCommandEcho` | drivers/thermostat/device.js:25-98 | in every mode, a whole-degree target polls back as the same target once the hub reports the setpoints it was sent |
| `ThermostatDriver.AutoMidpointOfText` | drivers/thermostat/device.js:89-93 | setpoints of "68" and "74" in auto mode give a target of 71 |
| `ThermostatDriver.PollUsesReportedMode` | drivers/thermostat/device.js:84-86 | a poll reporting `heat` takes the heating setpoint even when `cool` was stored |
| `ThermostatDriver.LoneSetpointOutsideItsMode` | drivers/thermostat/device.js:84-93 | a lone setpoint that the mode does not select leaves the target alone |
| `ThermostatDriver.DerivedTarget` | drivers/thermostat/device.js:76-93 | the target a poll derives; `ThermostatDriver.PollWithMode`, `ThermostatDriver.PollUsesReportedMode` and `ThermostatDriver.LoneSetpointOutsideItsMode` state its cases |
| `ThermostatDriver.PollAgreesWithWebhook` | drivers/thermostat/device.js:100-109 | temperature and mode webhooks write what a poll of that one attribute writes; a setpoint webhook is a poll |
| `ThermostatDriver.ThermostatWebhook` | drivers/thermostat/device.js:100-109 | `handleAttributeUpdate`; `ThermostatDriver.PollAgreesWithWebhook` states it against the poll |
| `ThermostatDriver.Reported` | drivers/thermostat/device.js:100-109 | writes something exactly for the attributes the poll fetches; the setpoints go through a re-poll instead |
| `ThermostatDriver.ThermostatDevice.OnCapabilityTargetTemperature` | drivers/thermostat/device.js:25-49 | sends the commands for the stored mode; a failure becomes "Failed to set target temperature" |
| `ThermostatDriver.ThermostatDevice.OnCapabilityThermostatMode` | drivers/thermostat/device.js:51-62 | sends the mode; a failure becomes "Failed to set thermostat mode" |
| `ThermostatDriver.ThermostatDevice.PollDeviceState` | drivers/thermostat/device.js:64-98 | the new capabilities are `ThermostatPoll` of the old |
| `ThermostatDriver.ThermostatDevice.HandleAttributeUpdate` | drivers/thermostat/device.js:100-109 | the new capabilities are `ThermostatWebhook` of the old |
| `ButtonDriver.ButtonNumber` | drivers/button/device.js:55 | the button number is never 0: it is the parsed integer, or 1 |
| `ButtonDriver.ButtonWebhook` | drivers/button/device.js:50-85 | an event attribute appends exactly one trigger of its card with a non-zero button; other attributes append nothing |
| `ButtonDriver.IntegerValue` | drivers/button/device.js:39 | the stored count is NaN exactly when `parseInt` fails |
| `ButtonDriver.ButtonNumberOfInteger` | drivers/button/device.js:55 | a non-zero button number, sent as a number or as text, selects that button |
| `ButtonDriver.ButtonNumberDefaults` | drivers/button/device.js:55 | a value without digits, or button 0, is button 1 |
| `ButtonDriver.TriggerCardsDistinct` | drivers/button/device.js:10-13 | the four event attributes fire four different cards, and nothing else fires one |
| `ButtonDriver.TriggerCard` | drivers/button/device.js:64-80 | the card each event attribute fires; `ButtonDriver.TriggerCardsDistinct` states that the four are distinct and nothing else fires one |
| `ButtonDriver.EventsFireInOrder` | drivers/button/device.js:64-80 | a series of webhooks appends, after the triggers already fired, exactly one trigger per event attribute, in order, each with that event's card and button number, and nothing for other attributes |
| `ButtonDriver.EventFiring` | drivers/button/device.js:64-80 | one event fires one trigger, with its card and button number, when its attribute is an event attribute, and nothing otherwise |
| `ButtonDriver.Fires` | drivers/button/device.js:55 | a series of events fires at most one trigger per event, and every trigger carries a non-zero button number |
| `ButtonDriver.WebhookAppends` | drivers/button/device.js:50-85 | a webhook appends to what has already fired exactly what its event fires on its own |
| `ButtonDriver.OtherAttributesFireNothing` | drivers/button/device.js:64-80 | a series of reports of attributes other than the four events fires no trigger |
| `ButtonDriver.PollStoresCount` | drivers/button/device.js:37-40 | a poll stores the reported button count |
| `ButtonDriver.ButtonPoll` | drivers/button/device.js:29-45 | the stored button count after a fetch; `ButtonDriver.PollStoresCount` states it |
| `ButtonDriver.ButtonDevice.PollDeviceState` | drivers/button/device.js:29-45 | the stored count is `ButtonPoll` of the old one, and nothing fires |
| `ButtonDriver.ButtonDevice.HandleAttributeUpdate` | drivers/button/device.js:50-85 | the fired triggers are `ButtonWebhook` of the old ones |
| `SwitchDriver.CommandEcho` | drivers/switch/device.js:82-89 | the hub echoing a switch command leaves the stored value as it is |
| `SwitchDriver.PollAgreesWithWebhook` | drivers/switch/device.js:57-72 | a poll finding `switch` writes what the webhook would |
| `SwitchDriver.Reported` | drivers/switch/device.js:77-93 | writes something exactly for the attributes the poll fetches |
| `SwitchDriver.SwitchDevice.OnCapabilityOnoff` | drivers/switch/device.js:31-52 | sends on/off; a failure becomes "Failed to control switch: " followed by the transport error |
| `SwitchDriver.SwitchDevice.PollDeviceState` | drivers/switch/device.js:57-72 | a successful fetch applies the poll; a failed one changes nothing |
| `SwitchDriver.SwitchDevice.HandleAttributeUpdate` | drivers/switch/device.js:77-93 | applies the report of the attribute |
| `ValveDriver.CommandEcho` | drivers/valve/device.js:58-62 | the valve's `open`/`closed` echo leaves the stored value as it is |
| `ValveDriver.PollAgreesWithWebhook` | drivers/valve/device.js:41-56 | a poll finding `valve` writes what the webhook would |
| `ValveDriver.Reported` | drivers/valve/device.js:58-62 | writes something exactly for the attributes the poll fetches |
| `ValveDriver.ValveDevice.OnCapabilityOnoff` | drivers/valve/device.js:24-39 | on opens, off closes; a failure becomes "Failed to control valve" |
| `ValveDriver.ValveDevice.PollDeviceState` | drivers/valve/device.js:41-56 | a successful fetch applies the poll; a failed one changes nothing |
| `ValveDriver.ValveDevice.HandleAttributeUpdate` | drivers/valve/device.js:58-62 | applies the report of the attribute |
| `LockDriver.CommandEcho` | drivers/lock/device.js:55-59 | the lock's `locked`/`unlocked` echo leaves the stored value as it is |
| `LockDriver.PollAgreesWithWebhook` | drivers/lock/device.js:38-53 | a poll finding `lock` writes what the webhook would |
| `LockDriver.Reported` | drivers/lock/device.js:55-59 | writes something exactly for the attributes the poll fetches |
| `LockDriver.LockDevice.OnCapabilityLocked` | drivers/lock/device.js:24-36 | sends lock or unlock; a failure becomes "Failed to control lock" |
| `LockDriver.LockDevice.PollDeviceState` | drivers/lock/device.js:38-53 | a successful fetch applies the poll; a failed one changes nothing |
| `LockDriver.LockDevice.HandleAttributeUpdate` | drivers/lock/device.js:55-59 | applies the report of the attribute |
| `BinarySensorDriver.PollReadsOwnAttribute` | drivers/contact-sensor/device.js:22-38 | a poll writes the alarm from the sensor's own attribute, when the fetch holds it, and nothing else |
| `BinarySensorDriver.ActiveWords` | drivers/leak-sensor/device.js:29-33 | each kind raises its alarm for exactly one word: open, wet, present, active |
| `BinarySensorDriver.KindsAreSeparate` | drivers/presence-sensor/device.js:29-32 | the four kinds read four different attributes and write four different capabilities |
| `BinarySensorDriver.OtherWordsClear` | drivers/motion-sensor/device.js:39-43 | any other value, including the hub's inactive word, clears the alarm |
| `BinarySensorDriver.PollAgreesWithWebhook` | drivers/contact-sensor/device.js:40-44 | a poll finding the attribute writes what the webhook would |
| `BinarySensorDriver.Reported` | drivers/contact-sensor/device.js:40-44 | a sensor's own attribute sets its alarm; `BinarySensorDriver.ActiveWords` and `BinarySensorDriver.OtherWordsClear` state the words that raise it |
| `BinarySensorDriver.BinarySensorDevice.PollDeviceState` | drivers/contact-sensor/device.js:22-38 | the new capabilities are the kind's poll of the old ones |
| `BinarySensorDriver.BinarySensorDevice.HandleAttributeUpdate` | drivers/contact-sensor/device.js:40-44 | applies the kind's report of the attribute |
| `TemperatureSensorDriver.WholeReadingsExact` | drivers/temperature-sensor/device.js:29-32 | a whole-number reading, as a number or as text, is stored exactly |
| `TemperatureSensorDriver.HumidityNeedsCapability` | drivers/temperature-sensor/device.js:34-37 | without the humidity capability, humidity never touches the capabilities, by webhook or by poll |
| `TemperatureSensorDriver.PollAgreesWithWebhook` | drivers/temperature-sensor/device.js:44-50 | a poll finding one attribute writes what the webhook would |
| `TemperatureSensorDriver.Reported` | drivers/temperature-sensor/device.js:44-50 | writes something exactly for the attributes the poll fetches, and for humidity only on a device with that capability |
| `TemperatureSensorDriver.TemperatureSensorDevice.PollDeviceState` | drivers/temperature-sensor/device.js:22-42 | the new capabilities are `SensorPoll` of the old ones |
| `TemperatureSensorDriver.TemperatureSensorDevice.HandleAttributeUpdate` | drivers/temperature-sensor/device.js:44-50 | applies the report of the attribute |
| `Scenarios.DimmerEcho` | drivers/dimmer/device.js:56-128 | dimming to 40 % sends `setLevel 40`; the stale 70 report is dropped at +500 ms and applied at +2500 ms |
| `Scenarios.ThermostatAuto` | drivers/thermostat/device.js:25-98 | in auto mode a target of 71 sends heating 70, then cooling 72, and polls back as 71 |
| `Scenarios.ColorDebounce` | drivers/color-light/device.js:77-159 | hue and then saturation within the debounce window send a single `setColor` |
| `Scenarios.FanReportsIgnored` | drivers/fan/device.js:261-295 | after the cooldown, an unknown name and a 54 % report (within the 0.05 tolerance) both leave the slider at 0.5 |
| `Scenarios.ButtonPush` | drivers/button/device.js:50-85 | a push of button 2 fires `button_pushed` once, with button 2 |

## Left out

- HTTP transport (`makeRequest`, app.js:92-137): status codes, JSON parsing and timeouts. A device fetch is an input, and a hub either accepts every command or refuses every command with one transport error.
- `HubClient.Hub.SendDeviceCommand` does not model a hub that fails partway through a handler. The hub is up or down for the whole call, so the thermostat's second auto-mode setpoint cannot fail after the first succeeds.
- Timers:
  - interval polling in every driver;
  - the 500 ms re-poll a listener schedules after a successful command, in drivers/color-light/device.js:48, drivers/color-temp-light/device.js:44, 65 and 91, drivers/dimmer/device.js:44, drivers/fan/device.js:99 and 152, drivers/switch/device.js:42, drivers/valve/device.js:33 and drivers/window-covering/device.js:49 and 70. No listener member schedules one; a re-poll is the driver's poll function applied to a later fetch;
  - the colour light's 100 ms debounce delay. The debounce is modelled as the one pending pair that `FireColorTimer` sends.
- Clock: each handler reads the clock once as `now`; the source calls `Date.now()` afresh at each stamp and test.
- Homey SDK plumbing:
  - Homey's range check on listener values, for which a listener's range `requires` stands;
  - writes to capabilities the device does not have;
  - errors from Flow card triggers, which the button only logs;
  - `setCapabilityValue` failures inside a poll, which the source catches and logs;
  - the fan's `setCapabilityValue` logging wrapper (drivers/fan/device.js:13-22).
- Log texts:
  - `this.log` and `this.error` output everywhere;
  - the entries that other operations append to the settings-page log that `App.HubitatApp.AddLog` models. `HubClient.Hub.SendDeviceCommand`, `Api.ProcessWebhook` and the members of `DimmerDriver.DimmerDevice` and `ColorLightDriver.ColorLightDevice` leave that log alone, so the model does not capture which entries they add. The `addLog` calls are:
    - in `sendDeviceCommand` (app.js:157, 167, 171 and 174);
    - in `onInit` (app.js:38-42);
    - in the webhook handler (api.js:9-33, 41, 54 and 68-84);
    - in the dimmer (drivers/dimmer/device.js:60, 67, 71, 105, 114, 121, 125, 127 and 130);
    - in the colour light (drivers/color-light/device.js:82, 90, 94, 109, 117, 121, 134, 148, 151, 156, 242, 251 and 258-286);
  - the settings writes of webhook debug information in api.js.
- The settings listener and `onInit` of the app (app.js:8-35) and the drivers' `onInit`/`onDeleted` set-up; the `driver.js` pairing front ends, which only forward to `getDevicesForDriver`.
- `onCapabilityLightMode` (drivers/color-light/device.js:185-189) only logs and returns its value, so it has no member.
- `JSON.stringify` and URL encoding of the colour payload: `setColor` carries the (hue, saturation, level) triple as a value.
- Numbers are exact reals, not IEEE doubles, so results that depend on rounding differ from the program's. In particular, `FanDriver.SpeedReport`'s `> 0.05` tolerance test (drivers/fan/device.js:281-285) differs exactly at the boundary. For example, a 55 % report against a slider at 0.5 is 0.05 away in the model and is ignored. In doubles, 0.55 − 0.5 is slightly more than 0.05, so the program applies it. The examples the model proves (`FanDriver.ToleranceBoundary`, `Scenarios.FanReportsIgnored`) use 54 % and 56 %, which behave the same both ways.
- `Js.ParseInt` and `Js.ParseFloat` read decimal digits only: hexadecimal prefixes, exponents and `Infinity` are not modelled.
- `Js.ToString` does not render numbers that need an exponent.
- `Js.ToLower` lower-cases ASCII letters only.
- Object prototype keys (`toString`, `__proto__`) used as attribute names or table keys are not modelled.
