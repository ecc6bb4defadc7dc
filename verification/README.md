# Verification of the kasa exporter's device layer

This project models the device layer of a Prometheus exporter for TP-Link Kasa and Tapo devices,
and the part of its collectors that turns one snapshot into metric series, and proves what they
promise. It has four parts.

**The fleet registry.** `FleetProtocol.dfy` is the registry's concurrency as an interleaved
machine: any number of scrapers, background discovery sweeps, reader goroutines and closers, each
taking one step at a time under a clock that only moves forward, with explicit owners for
`snapshotMtx`, `devicesMtx`, every device's mutex and every transport's, a counting semaphore and
a WaitGroup. `FleetInvariants`, `FleetHistory`, `FleetRounds` and `FleetServed` prove what every
step keeps; `FleetTheorems` states safety over every run, `FleetProgress` that no reachable state
with unfinished work is stuck, and `FleetTermination` that every schedule comes to an end.
`FleetSweeps`, `FleetCopies`, `FleetReads` and `FleetCloses` tie the state to what a run did, told
from its actions alone: what the sweeps found, which set each round copied, what each read came to
and which devices were closed. `FleetConnections` is what can become of a device once it is dropped. `Fleet.dfy` holds the set
algebra of a sweep and the published order. `Registry.dfy` is the same device set updated in place.

**Encrypted sessions.** `Crypto.dfy`, `Klap.dfy` and `Xor.dfy` are the codecs: padding and block
chaining, key derivation and IVs, the XOR autokey stream and its frame. `KlapSession.dfy` runs the
KLAP transport against a device that speaks the protocol and may forget its session, by its own
request counter or by a script, lose a post or a reply, or answer anything; `Aes.dfy` runs the older transport against a
device that answers anything. Digests and the block cipher are uninterpreted: `Primitives` asks
for fixed digest lengths and for a block cipher that is a permutation under each key.

**Dialects.** `Iot.dfy` (heap cells) and `Emeter.dfy` (values) are the IOT dialect: remembered
module support, per-outlet energy folded into strip totals, and a counter that must not go
backwards. `Smart.dfy` is the SMART dialect.

**Connections, discovery and series.** `Connect.dfy`, `Device.dfy`, `Discovery.dfy`; `Series.dfy`,
`Outlets.dfy` and `Collectors.dfy` are the series as the collectors build them, `SeriesValues.dfy`
what those series say, written out from the readings, and `DialectSeries.dfy` follows a device's
answers into them; `Snapshots.dfy` joins the registry's runs to the series.

The code and its comments disagree in three places, and the model follows the code.

- `kasa/klap.go:38-40` says both login versions are tried when a device does not name one. Probing
  stops at the first rejected login, so a login-version-1 device that stays silent in discovery is
  never reached (`Connect.LoginV1ReachedIffItAnswersDiscovery`).
- `kasa/iot.go:347-379` means to withhold a strip's counter when an outlet is missing from it. An
  outlet that answers with power but no total still counts as measured, so the published counter
  can be partial and can fall (`Emeter.PartialTotalCounterexample`); exactly when it cannot is
  `Emeter.CounterSafeIffNoReportLost`.
- `kasa/smart.go:51-53` says an optional method is switched off the first time the device reports it
  unsupported. A read that fails after its batch was answered switches nothing off and the next
  read asks again (`Smart.SmartQuerier.AskedTwice`); the exact count is `Smart.SmartQuerier.ReadTimes`.

One interleaving is easy to miss: `kasa/registry.go:231-244` closes a device and drops it, but a
reader of the round in progress works on a copy of the set and can connect that device again
afterwards. `FleetConnections.DroppedReconnectsIffStillRead` says exactly when, and
`FleetConnections.LateConnectionLeaks` that nothing ever closes that connection.

## Model

| member | source | states |
|---|---|---|
| FleetTheorems.InvOverRuns | kasa/registry.go:123-297 | every run of the machine keeps the whole invariant: lock ownership, device set, sweep and round histories, reader slots, cache |
| FleetInvariants.MutexesStep | kasa/registry.go:123-170 | each registry mutex is held by exactly the thread whose code position says so, after every step |
| FleetInvariants.DeviceLocksStep | kasa/device.go:200-261 | so is each device's mutex; a transport is only held from inside its device's mutex |
| FleetTheorems.OneSweepAtATime | kasa/registry.go:152-207 | at most one sweep is in flight, and `discovering` is true exactly while one is |
| FleetTheorems.SweepsKeepTheirInterval | kasa/registry.go:157-204 | each sweep starts at least DiscoveryInterval after the previous one finished, failed or not |
| FleetTheorems.FirstSweepComesFirst | kasa/registry.go:147-174 | with discovery on, every snapshot handed out was handed out after a first sweep had finished |
| FleetTheorems.DeviceSetKeepsItsShape | kasa/registry.go:212-251 | in every reachable state each device sits under its own address and every configured host is present |
| FleetSweeps.DeviceSetIsItsSweeps | kasa/registry.go:193-251 | over every run, while no sweep is out the device set is what every sweep of the run found, merged in the order of the sweeps into the configured set; while one is out, that of all but perhaps the last |
| FleetSweeps.RoundsReadAFreshSet | kasa/registry.go:147-181 | with discovery on, no round reads a stale device set: a sweep had ended less than DiscoveryInterval before the round began, or ended after that, or was still out |
| FleetSweeps.OnlyTheFirstSweepBlocks | kasa/registry.go:147-181 | a scrape only ever waits out a sweep while none has finished yet; every later one runs in the background |
| FleetTheorems.RoundsKeepTheirDistance | kasa/registry.go:123-135 | query rounds never overlap and each starts at least CacheTTL after the previous ended |
| FleetTheorems.RoundsPerWindow | kasa/registry.go:123-135 | a window of length w sees at most w / CacheTTL + 1 rounds start |
| FleetTheorems.SnapshotsAreFresh | kasa/registry.go:123-135 | every snapshot returned is what a finished round published: the caller's own, or one that ended less than CacheTTL before the caller's check |
| FleetTheorems.ReadersWithinConcurrency | kasa/registry.go:265-273 | any set of threads past the semaphore has at most Concurrency members |
| FleetTheorems.ReadAllIsMapThenSort | kasa/registry.go:256-297 | a finished round wrote every slot exactly once, for its own device, and published the list strictly ordered by address with one row per device, holding exactly the rows written |
| FleetCopies.RoundsReadTheDeviceSet | kasa/registry.go:256-295 | told from a run's actions: a round that has ended copied the device set exactly once, and published one row for each address of the set as it stood then, and no others |
| FleetReads.EverySlotIsItsRead | kasa/registry.go:269-292 | told from a run's actions: a round that has ended made exactly one read of each of its devices, and each slot holds the outcome that read returned with |
| FleetReads.ServedRowsBearTheirReads | kasa/registry.go:123-135 | every row of every snapshot handed out bears the outcome of its round's one read of that device, and every device of the round has such a row |
| FleetTheorems.ScheduleDoesNotShow | kasa/registry.go:258-296 | rounds with the same results publish the same list, whatever the map order and the schedule |
| FleetProgress.NoDeadlock | kasa/registry.go:123-297 | in every reachable state with an unfinished scraper, sweep, reader or closer, some thread can take a step |
| FleetTermination.EveryScheduleFinishes | kasa/registry.go:123-297 | from any reachable state, whatever scheduler drives the threads and however time passes, all of them end and every scraper under way is handed a snapshot; no fairness is assumed |
| FleetTermination.StepLowers | kasa/registry.go:123-297 | every step of a thread lowers one lexicographic measure of the work left |
| FleetTermination.SomeSchedule | kasa/registry.go:123-297 | such a scheduler exists: whenever work is left it has a step to pick |
| FleetConnections.DroppedReconnectsIffStillRead | kasa/registry.go:256-276 | a dropped device without a connection can hold one again exactly when a reader of the round in progress has yet to read it |
| FleetConnections.DroppedIsGone | kasa/registry.go:231-244 | what a sweep drops is neither in the device set afterwards nor on any sweep's list |
| FleetConnections.GoneStep | kasa/registry.go:212-251 | and no step of any thread brings it back |
| FleetConnections.SettledForGood | kasa/registry.go:231-262 | once no reader is left to read it, a dropped and closed device stays unconnected over every continuation |
| FleetConnections.LateConnectionLeaks | kasa/registry.go:138-144 | a dropped device that a late reader has connected keeps its connection over every continuation: no sweep, no round and no Close ever closes it |
| FleetConnections.ConnectedIffLastReadSucceeded | kasa/device.go:224-261 | over every run a device holds a connection exactly when the last read or close of it to return was a read, and one that succeeded |
| FleetCloses.SweepClosesWhatItDrops | kasa/registry.go:231-244 | the devices a sweep has closed by the end of its merge are exactly those it drops |
| FleetCloses.CloseClosesEveryDevice | kasa/registry.go:138-144 | the devices Close has closed when it returns are exactly those of the device set |
| Fleet.MergeIs | kasa/registry.go:212-244 | the key set after a sweep is configured plus found, or old plus found when missing devices are kept; survivors keep their device, new hosts get the first device found there |
| Fleet.SweepsKeepConfigured | kasa/registry.go:212-251 | over any run of sweeps every configured host keeps its original device and every device its own address |
| Fleet.SortRowsIs | kasa/registry.go:295-295 | sorting rows of distinct hosts orders them strictly and neither adds nor loses one |
| Fleet.OrderedUnique | kasa/registry.go:253-255 | a set of rows has only one strictly ordered list |
| RegistryModel.Registry.constructor | kasa/registry.go:100-119 | one unconnected device for each configured host, and nothing else |
| RegistryModel.Registry.Reconcile | kasa/registry.go:212-251 | reconcile in place equals the merge function; only dropped devices are touched and they hold no connection afterwards |
| RegistryModel.Registry.Close | kasa/registry.go:138-144 | every device's connection is released and the set is unchanged |
| RegistryModel.AddKeepsValid | kasa/registry.go:216-229 | after adding found devices every device was there before or is one of those found, sits under its own host, and shares its connections with no other |
| KlapSession.KlapTransport.Query | kasa/klap.go:296-329 | at most two passes of at most three posts; a rejected login or a lost post stops it; as long as no reply is forged, an uninterrupted call under a recognised login returns the device's answer to this request unless the device refused it twice, which its request counter alone never does, and the two sides agree afterwards whatever was lost |
| KlapSession.KlapTransport.QueryAll | kasa/klap.go:296-329 | over any run of calls without a forged reply, posts and replies lost at will, every reply of an uninterrupted call is the device's answer to its own request unless that was refused twice; sessions forgotten and refusals seen are conserved, and the two sides agree at the end |
| KlapSession.KlapTransport.Handshake | kasa/klap.go:187-235 | unless a post is lost or randomness fails, both sides end with the same session and cookie exactly when the device's login is recognised; a lost handshake is an error, not retried |
| KlapSession.KlapTransport.Exchange | kasa/klap.go:307-326 | one request under a shared session returns exactly the device's reply, a refusal or the loss of one, and uses one fresh IV whatever becomes of it |
| KlapSession.KlapTransport.IvsDistinct | kasa/klap.go:281-309 | the IVs of one session are pairwise distinct over any 2^32 attempts, failed ones included |
| KlapSession.KlapTransport.Close | kasa/klap.go:332-337 | no session is believed in and no cookie kept afterwards |
| KlapSession.KlapDevice.Serve | kasa/fakedevice_test.go:71-178 | the other party: handshake, malformed handshake, login proof, request, and the session forgotten by the request counter, whether or not its reply gets back |
| Klap.SequenceIsModular | kasa/klap.go:307-308 | the int32 counter after n increments is the start plus n modulo 2^32 |
| Klap.IvsCollideExactlyEvery2To32 | kasa/klap.go:281-287 | two requests of a session share an IV exactly when they are a multiple of 2^32 apart |
| Klap.Derive | kasa/klap.go:132-141 | derived keys have lengths 16, 28 and 12 and the sequence base is an int32 |
| Klap.DerivationsWrittenOut | kasa/klap.go:94-142 | every derivation written out: what is hashed, in which order, and which bytes of it are kept, for both login hashes, both proofs, the keys, the IV and the first sequence number |
| Klap.MessageWrittenOut | kasa/klap.go:239-259 | a request on the wire: signature, then ciphertext, with the signature over the key, the big-endian sequence number and the ciphertext |
| Klap.ExchangeDelivers | kasa/klap.go:239-277 | with shared keys the device accepts and reads the sealed request and the client reads back its reply |
| Klap.MatchFindsHeldLogin | kasa/klap.go:208-224 | handshake 1 picks the login the device holds if it is a candidate, and none otherwise |
| Klap.SharedLoginIsCandidate | kasa/klap.go:54-61 | the logins tried are the operator's, the blank one and the vendor's two, no others, and the operator's comes first |
| Klap.VersionsNeverAgree | kasa/klap.go:104-115 | no login hashed under one version is a candidate of the other |
| Crypto.UnpadInvertsPad | kasa/klap.go:341-362 | unpad accepts x giving d exactly when x is d padded (section 6.3 of RFC 5652) |
| Crypto.CbcDecryptInvertsEncrypt | kasa/klap.go:249-251 | chaining decrypts to what was encrypted, for every key and IV |
| Crypto.CbcEncryptInvertsDecrypt | kasa/klap.go:274-275 | and the other way round |
| Crypto.CbcEncryptAt | kasa/klap.go:249-251 | block by block the equation of section 6.2 of NIST SP 800-38A: a ciphertext block is the encryption of the data block xor the ciphertext block before it, the IV for the first |
| Crypto.CbcDecryptAt | kasa/klap.go:274-275 | and its converse: a data block is the decryption of the ciphertext block, xor the ciphertext block before it, the IV for the first |
| Crypto.XorBlocksAt | kasa/klap.go:249-251 | the blocks are combined byte by byte |
| Crypto.SealTellsIvs | kasa/aes.go:348-358 | one payload sealed under two IVs differs in its first block |
| Crypto.OpenInvertsSeal | kasa/aes.go:348-371 | a ciphertext opens to a payload exactly when it is that payload sealed |
| XorWire.StreamsInvert | kasa/xor.go:44-64 | the two autokey streams are inverse both ways |
| XorWire.XorEncrypt | kasa/xor.go:44-52 | the in-place loop computes the autokey stream |
| XorWire.XorDecrypt | kasa/xor.go:56-64 | the in-place loop computes the inverse stream |
| XorWire.BuildFrame | kasa/xor.go:82-119 | the length-prefixed frame of a request |
| XorWire.KeyCancelsItself | kasa/xor.go:44-118 | byte for byte: a big-endian length, the first byte against the fixed key, each later one against the ciphertext before it |
| XorWire.ParseInvertsFrame | kasa/xor.go:119-142 | a frame parses back to its message whatever follows it on the stream |
| Bytes.PutUint32Injective | kasa/klap.go:285-285 | the big-endian encoding of 32-bit words is injective |
| Bytes.XorAt | kasa/xor.go:44-64 | xor is bit by bit |
| Aes.AesTransport.Query | kasa/aes.go:82-105 | a second pass is made exactly when the session the request went out under has expired, in the outer code or the one of the opened payload, and then begins with a handshake; the reply is x exactly when the first pass gives x, or it expires and the second, from nothing, gives x; a device that takes neither login shape, in either pass, is reported as a rejected login |
| Aes.AesTransport.Connect | kasa/aes.go:122-181 | established afterwards exactly when the device hands over a 32-byte secret and accepts one of the two login shapes; then with a 16-byte key and IV and a token |
| Aes.AesTransport.Login | kasa/aes.go:188-240 | both login shapes are tried, in order, before a rejection, and a rejection leaves no session |
| Aes.AesTransport.Passthrough | kasa/aes.go:250-299 | the device is sent what opens to the request, and the reply is what its answer opens to |
| Aes.AesTransport.Close | kasa/aes.go:108-114 | the session, its cookie and the token are forgotten |
| Emeter.SpellingsAgree | kasa/iot.go:141-181 | every spelling of a meter reading normalises to the same figures, no two quantities exchanged |
| Emeter.FirstSpellingDecides | kasa/iot.go:141-181 | when one quantity comes in several spellings the first in the fixed order decides, and no other quantity's spellings matter |
| Emeter.AccumulatedIsSum | kasa/iot.go:467-492 | power, current and total of a strip are the sums over the outlets that report them, absent exactly when none does |
| Emeter.AccumulatedVoltageIsFirst | kasa/iot.go:467-479 | voltage is the first one reported |
| Emeter.StripPublishes | kasa/iot.go:347-379 | what a strip publishes: nothing unless some outlet was measured, the sums of power and current over those that were, and the sum of their counters only if all of them were |
| Emeter.StripCounterNeverDecreases | kasa/iot.go:321-379 | over any run of reads with any outlet failures the published counter never falls, given a fixed outlet set, growing outlet counters and totals in every successful outlet reading |
| Emeter.CounterSafeIffNoReportLost | kasa/iot.go:347-379 | without that last hypothesis: two complete reads are safe for all counters exactly when no outlet that reported its total stops doing so, or none reports afterwards |
| Emeter.PartialTotalCounterexample | kasa/iot.go:347-376 | two reads with growing outlet counters whose published strip counter falls |
| Iot.IotQuerier.ReadSockets | kasa/iot.go:321-379 | every child is asked and published, the totals are those of the outcomes, in cells no outlet shares; only losing every outlet is an error |
| Iot.IotQuerier.ReadOutlet | kasa/iot.go:326-345 | one outlet's label, energy and outcome |
| DialectSeries.IotOutletIsSent | kasa/iot.go:326-400 | from the answer to an outlet's question to the metric values sent for it: number and name, relay as 1 or 0, and each figure of the meter in the metric's unit, from the first spelling present; nothing metered after an error |
| DialectSeries.EitherIdAsksTheSame | kasa/iot.go:383-389 | an outlet is asked for by its full identifier, whether the device reported that or the bare position |
| Iot.AddFloat | kasa/iot.go:483-492 | the total's quantity becomes the sum, in the total's own cell once it has one and else in a fresh one; no other cell changes |
| Iot.AddEnergy | kasa/iot.go:467-479 | accumulating one reading changes the total's value as on values and leaves the added reading alone |
| Iot.Absorb | kasa/iot.go:345-366 | folding in one more outlet leaves every reading already published as it was |
| Iot.OutletIdsDistinct | kasa/iot.go:328-328 | outlets 1 to n have distinct ids |
| Iot.FromRaw | kasa/iot.go:141-181 | the heap reading holds the normalised value in fresh cells |
| Iot.IotQuerier.RetryEmeter | kasa/iot.go:281-309 | the other module name is asked once, a hit remembered and a miss given up on |
| DialectSeries.MeterIsChosen | kasa/iot.go:243-309 | which answer refuses the read, and whose meter a plain device is read with: the first answer's, or, from a light still believed to have one, the answer under the other module's name |
| Iot.IotQuerier.Read | kasa/iot.go:231-276 | one request, and a second exactly when the emeter is worth retrying; what is learned and what is published |
| Iot.ReadLearns | kasa/iot.go:281-309 | against a device with fixed support a read learns and costs exactly as the learning functions say |
| Iot.LearningCostsOneRequest | kasa/iot.go:281-309 | whatever is remembered, k reads cost k requests, and one more exactly when the first has to look for the other module name |
| Iot.IotQuerier.ReadTimes | kasa/iot.go:231-309 | k reads of a device that is no strip, with fixed support, reach it exactly that often, and what is remembered afterwards is what the first read learned |
| Iot.IotQuerier.ReadStripTimes | kasa/iot.go:231-379 | over k reads of a strip, any reads and any outlets failing, the counters of the readings given out never fall, under the hypotheses of `Emeter.StripCounterNeverDecreases`, and every reading still shows what it showed |
| Smart.SmartQuerier.Read | kasa/smart.go:240-286 | one batch, a second request exactly when the batch lacked device information; a failed read learns nothing, a successful one stops asking for what went unanswered |
| Smart.AskingInOrder | kasa/smart.go:241-250 | a batch begins with get_device_info and names no method twice |
| DialectSeries.DeviceInfoIsSent | kasa/smart.go:409-430 | from get_device_info to metric values: signal, uptime, overheating and the status light, which is reported the other way round, each under its own name |
| DialectSeries.SwitchStateIsSent | kasa/smart.go:409-430 | and the relay and light settings under the names of the kind the device turned out to be |
| DialectSeries.SmartInfoIsSent | kasa/smart.go:409-430 | and every label of the info metric, in order |
| DialectSeries.SmartEnergyIsSent | kasa/smart.go:288-324 | watts are believed before milliwatts, kilowatt-hours come from the month's watt-hours, and nothing else is metered |
| Smart.SmartQuerier.ReadEnergy | kasa/smart.go:291-324 | the merged energy and the two flags it may clear |
| Smart.EitherPowerMethodAgrees | kasa/smart.go:288-319 | milliwatts of one method and watts of the other read the same, and get_current_power is believed over get_energy_usage |
| Smart.Tabulate | kasa/smart.go:223-229 | the table holds exactly the methods answered without error, each with its last answer |
| Smart.AskedWhileAnswered | kasa/smart.go:252-283 | after any run a method is still asked for exactly when every successful read answered it |
| Smart.UnsupportedAskedOnce | kasa/smart.go:47-56 | an optional method the device never answers is asked for in exactly one successful read, if there is one; failed reads are counted by the next rows |
| Smart.SmartQuerier.ReadTimes | kasa/smart.go:240-286 | over k reads of any device the batches naming a method are exactly the reads up to and including the first successful one that left it unanswered |
| Smart.AskedOnceIffFirstReadSucceeds | kasa/smart.go:252-283 | a method never answered is asked for once over a run exactly when the first read succeeds or is the only one |
| Smart.SmartQuerier.AskedTwice | kasa/smart.go:252-263 | an empty batch followed by a lost get_device_info teaches nothing, and the next read asks again |
| Smart.EmptyBatchSilences | kasa/smart.go:236-262 | one empty batch answered by a lone get_device_info silences every optional method for good |
| Smart.ApplyChildren | kasa/smart.go:328-348 | children become sensors under a hub and outlets of a strip otherwise |
| DialectSeries.HubListsItsSensors | kasa/smart.go:328-342 | a hub's sensors are the ones it listed, in order |
| DialectSeries.SensorIsSent | kasa/smart.go:371-403 | every figure of a sensor reaches the metric it belongs to, its temperature in degrees Celsius whichever unit it is set to |
| DialectSeries.SmartOutletIsSent | kasa/smart.go:343-367 | every outlet listed by a device that is no hub is sent under its number and name, its relay as 1 or 0, and none is metered |
| Smart.SmartSockets | kasa/smart.go:352-367 | outlets numbered by position plus one, or by place in the list |
| Smart.SocketIdsDistinctIff | kasa/smart.go:350-367 | outlet ids are distinct exactly when the numbers the firmware implies are |
| Smart.MixedPositionsCollide | kasa/smart.go:355-359 | firmware that numbers only some outlets can make two ids collide |
| Connect.Negotiate | kasa/connect.go:36-77 | what the host is contacted with and in which order, what is returned, and that every querier built is closed unless it is returned |
| Connect.Probe | kasa/connect.go:55-77 | the candidates tried are a prefix of the order ending at the first success, the first rejected login, or exhaustion |
| Connect.SilentHostReachedIff | kasa/connect.go:55-124 | an unknown silent host that answers one way of being asked and fails every other is reached exactly when that way is one of five, written out, and then over it |
| Connect.SilentHostTriedFiveWays | kasa/connect.go:110-124 | a host that fails everything is contacted those five ways, in that order |
| Connect.SilentHostProbed | kasa/connect.go:55-77 | whatever a silent host answers, it is contacted with a prefix of the five, all but the last of which fail, and the last is returned if it answered |
| Connect.AskedGoesFirst | kasa/connect.go:41-55 | a host that describes itself when asked is contacted as it says first, and only if that does not answer as any silent host |
| Connect.KnownGoesByItsReply | kasa/connect.go:36-39 | a host known from discovery is not contacted at all: it is connected to as its reply says, or not at all |
| Connect.LoginV1ReachedIffItAnswersDiscovery | kasa/connect.go:55-77 | an unknown login-version-1 device is reached exactly when it describes itself in discovery; otherwise the first version 2 candidate's rejection ends the probe |
| Connect.LoginV1HolderRejectsV2 | kasa/klap.go:208-221 | such a device matches no version 2 candidate |
| Connect.RejectionAfterDiscoveryStillProbes | kasa/connect.go:43-55 | a login rejected in the ask-the-device step does not stop the probe |
| Connect.BudgetLeavesTimeIffLong | kasa/connect.go:89-103 | the question leaves time for the connection exactly when the timeout exceeds 500 ms |
| Devices.Device.Read | kasa/device.go:224-251 | connections built and not closed are exactly the one held; a failure leaves none, and the history of names and categories grows by one exactly on success |
| Devices.Device.Close | kasa/device.go:254-261 | the held connection is closed once |
| Devices.Device.Alias | kasa/device.go:200-248 | over any run of reads and failures the name is the last one read that was not blank, before there is one the discovered name, and the address when that is blank |
| Discovery.Collect | kasa/discover.go:187-212 | each host's entry is its last reply naming a transport, or else its last reply |
| Discovery.OrderIrrelevantIffConsistent | kasa/discover.go:202-208 | the outcome is independent of arrival order exactly when no host's decisive replies differ |
| Discovery.MergedUnique | kasa/discover.go:187-212 | the replies determine the table |
| Discovery.ParseSmart | kasa/discover.go:256-287 | which replies are accepted, where each field comes from, and that the transport is taken as KLAP exactly when it is named so in any case, blank, or not given |
| Connect.UnnamedTransportIsKlap | kasa/connect.go:140-180 | such a reply is connected to over KLAP, on the port, scheme and login version it gives or else their defaults |
| Discovery.LegacyUnlessAnotherNamed | kasa/discover.go:187-252 | a host that answered is recorded under the legacy transport exactly when nothing it sent on port 20002 named another, whatever it sent on port 9999 and in any order |
| Series.NoSeriesTwiceIff | collector/metrics.go:90-96 | over one snapshot of distinct hosts all collectors together emit no two metrics with one name and one set of labels exactly when no strip has two outlets, and no hub two sensors, that share one |
| Snapshots.ServedSeriesOnceIff | collector/metrics.go:90-96 | the same for the rows of every snapshot handed out in any run of the registry, distinct hosts being proved and not assumed |
| Snapshots.ServedRowsDistinct | kasa/registry.go:256-297 | no snapshot lists a host twice, and every reading carries its row's host |
| Snapshots.ReadRow | kasa/registry.go:280-287 | the row a reader writes: its device's host, last name and category, and the reading exactly as the read returned it, that read being what the host answers over the connection held or negotiated |
| Series.KindBlockOnceIff | collector/strip.go:101-138 | the same for the series of one reading, for any outlets and sensors |
| Outlets.IotStripsTellOutletsApart | kasa/iot.go:326-333 | IOT strips always meet that condition, however many outlets share an alias |
| Outlets.SmartStripsTellOutletsApart | kasa/smart.go:350-367 | SMART strips meet it when their firmware gives no outlet number twice |
| Series.EnergyOncePerHost | collector/metrics.go:90-96 | given distinct hosts only, each energy quantity is emitted at most once per host |
| Series.CountsAddUp | collector/device.go:121-155 | the kasa_devices counts add up to the number of devices, unreachable ones included |
| SeriesValues.SeriesSayTheReadings | collector/metrics.go:133-236 | everything the collectors together send for one snapshot: a metric is sent if and only if it is a count or some row says it, what a row says being written out quantity by quantity, with its labels and its value |
| SeriesValues.EnergyIsWhatWasRead | collector/metrics.go:133-141 | each energy quantity is sent for a host and a name with a value if and only if a reading of theirs, of a kind with energy, has that value for that quantity |
| SeriesValues.UpSaysWhatWasRead | collector/device.go:123-142 | `up` is 1 exactly for a row with a reading, under the reading's name, and 0 exactly for a row without, under the last known one |
| SeriesValues.CountsSayHowMany | collector/device.go:129-155 | for each kind there is a device of, and no other, one count: how many rows were read as that kind or, unread, were last known as it |
| Snapshots.UpIsTheRead | collector/device.go:111-142 | over every run of the registry, `up` of a device of a snapshot handed out is 1 exactly when the one read made of it for that snapshot came to a reading, and 0 exactly when it did not |
| Collectors.UpdateDevices | collector/device.go:111-158 | the device collector sends exactly its series, and the counts in some order |
| Collectors.UpdateStrips | collector/strip.go:101-138 | the strip collector sends exactly the series of the strips |
| Collectors.UpdateHubs | collector/hub.go:110-144 | the hub collector sends exactly the series of the hubs |
| Collectors.ReadingsOfType | collector/metrics.go:59-74 | the kind's readings in order, and whether there were any devices |
| Collectors.EmitEnergy | collector/metrics.go:133-141 | the energy quantities a device reported, and no others; what they are worth is `SeriesValues.EnergyIsWhatWasRead` |
| Collectors.EmitLight | collector/metrics.go:197-204 | the light settings a device reported, without colour where the hardware has none |

## Left out

- Sockets, HTTP, UDP, contexts and timeouts, and cookie attributes other than the session's number: a post or read is a reply or an error; a timeout is an error.
- Digests, the block cipher, RSA and random numbers: uninterpreted, with lengths, inverses and, for KLAP, one explicit hypothesis (`Separates`) that under the seed pairs the two sides have drawn the digest tells the device's login from the candidates; injectivity of a fixed-length digest on all strings would be contradictory.
- JSON and base64: messages start decoded; a payload that does not decode is a value of its own.
- Floating-point rounding: quantities are reals.
- How long device and discovery operations take: a call on a device reaches its transport a finite, unbounded number of times, a discovery ends with a failure or a finite list, and callers arriving meanwhile are outside the termination theorem.
- The registry as objects under the interleaved machine: the machine works on device identities and addresses, and the object updates of reconcile and Close are proved separately in the registry class.
- The order of map updates inside one reconcile: the machine applies them together when devicesMtx is released, since nobody can look in between.
- A device on the far side of the older encrypted transport: it answers anything, so nothing is proved about the device's own state; failures before its handshake is posted are not modelled.
- Slice aliasing of `append` in the label lists of the strip and hub collectors.
- What an IOT reading says beside its category, energy and outlets (identification, signal, light state), and the model-to-category tables: a reading carries the category its model resolves to.
- Metric name text, help text and the counter/gauge distinction: metric names are constructors, distinct by construction.
- The plug, bulb, light strip, dimmer and wall switch loops: represented by the series they emit, whose values are proved.
- Upper-casing and case folding beyond ASCII; host name parsing; collector toggles and filtering; flags, logging and pages.
