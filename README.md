# A verified model of the sample VEN client's core

This project models, in Dafny, the sequential core of a sample demand-response client. The client registers VENs (virtual end nodes) and their flexible resources with a VTN server, and replays meter data for them.

The model covers these parts:

- **Meter-data simulator.** It loads each VEN's resources from a resource catalog and sorts them into PENDING, APPROVED and SUSPENDED buckets. It gives approved resources a meter, moves resources between buckets and reports bucket statistics. It also moves a cyclic replay cursor and reads one reading per load component at that cursor.
- **Application context.** A shared name-to-object registry.
- **Key conversion.** `camel_to_snake` and the recursive `process_dict`.
- **Client registration.** The attribute flattening used to register resources, and the status-code rules of VEN registration, resource registration and event polling.
- **Sample generation.** The rules that build sample resources and load records.
- **Data model.** The enumerations and records everything else uses.

The files and modules are:

- `wrappers.dfy` (`Wrappers`): Option and Result types.
- `ascii.dfy` (`Ascii`): character classes and `str.lower`.
- `strings.dfy` (`Strings`): `startswith`, substring test, `split`/`join`, `strip`, decimal rendering, string ordering and sorting.
- `values.dfy` (`Values`): Python values and insertion-ordered dictionaries.
- `flex_resources.dfy` (`FlexResources`)
- `utils.dfy` (`Utils`)
- `context.dfy` (`Context`)
- `client.dfy` (`Client`)
- `prepare_samples.dfy` (`PrepareSamples`)
- `prepare_load_samples.dfy` (`PrepareLoadSamples`)
- `meterdata_simulator.dfy` (`MeterdataSimulator`)

State that the Python code changes in place is modelled as Dafny classes:

- the simulator and its Borg shared-state slot (`MeterdataSimulator.MeterDataSimulator`, `MeterdataSimulator.SimulatorSlot`);
- the registry and its singleton slot (`Context.ApplicationContext`, `Context.ContextSlot`);
- the VEN client and the VEN manager (`Client.VenClient`, `Client.VenManager`).

Everything else is functions and lemmas. Loops in the source are methods with loop invariants, each proved against a specification function.

Things outside the program become parameters:

- **Resource catalog (SQLite).** A map from VEN to its resource rows. The simulator also calls a catalog VEN list and a catalog status write. The catalog class in resource_db.py defines neither, so the model assumes a catalog that provides both (see "## Left out").
- **HDF5 reading source.** A map from meter key to a `MeterGroup`. A group holds an optional `num_load_components` attribute and each load's `(seconds, power)` series.
- **Calls that can fail.** The meter listing and the series-length probe are `Option` parameters; `None` means the call raised.
- **Server answers.** An `HttpOutcome`: either `Failed` (any exception) or `Reply(status, body)`.
- **`str()` of a value.** The `render` parameter.
- **Randomness.** `random.random() < 0.1`, `random.choice` and `randint` are free choices (`:=` `*` and `:|`). `uuid.uuid4()` is any id not yet used in the batch.

The Borg pattern of the simulator, where every `MeterDataSimulator()` shares one state dictionary, is modelled as one `SimulatorSlot` holding the single shared simulator object.

Python object sharing between lists and buckets is modelled by storing each loaded resource once. The simulator's `store` is keyed by resource id. `vens` holds each VEN's resource ids in catalog order, and the buckets are sets of ids. So a change to a resource, such as a new meter or a new status, is seen through every list and bucket that holds it, as it is in Python. This relies on resource ids being unique in the catalog; resource_db.py:68 declares the column `UNIQUE`. `CatalogUnique` states this.

Python dictionaries keep insertion order. Where the order is observable, the model records it:

- `venOrder` holds the key order of `vens`, which `get_ven_list` returns;
- `order` holds the registry's key order;
- `Values.Put`/`Values.Collect` record the order of a dict comprehension.

## Model

| member | source | states |
|---|---|---|
| Ascii.ToLower | venclient/utils.py:20 | `str.lower` on an ASCII character: the result is never upper-case, an upper-case letter maps to its lower-case partner (code + 32), and every other character is unchanged |
| Ascii.Lower | venclient/utils.py:20 | `str.lower` keeps the length and lower-cases position by position |
| Ascii.LowerHasNoUpper | venclient/utils.py:20 | a lower-cased string holds no `[A-Z]` letter |
| Ascii.LowerOfNoUpper | venclient/utils.py:20 | lower-casing a string without upper-case letters returns it unchanged |
| Ascii.LowerConcat | venclient/utils.py:20 | lower-casing distributes over concatenation |
| Strings.ContainsAt | prepare_samples.py:65 | Python's `sub in s` holds exactly when `sub` occurs at some position of `s` |
| Strings.Split | prepare_samples.py:156 | `str.split(sep)` always yields at least one part, and no part contains the separator |
| Strings.JoinSplit | prepare_samples.py:156 | joining the parts of a split with the same separator gives back the string |
| Strings.SplitLength | prepare_samples.py:156 | a split has one more part than the separator has occurrences |
| Strings.LeadingSpace | prepare_samples.py:157 | counts exactly the leading whitespace run |
| Strings.TrailingSpace | prepare_samples.py:157 | counts exactly the trailing whitespace run |
| Strings.Strip | prepare_samples.py:157 | `str.strip()`: the result is a contiguous piece of the input, only whitespace is cut on each side, and the result neither starts nor ends with whitespace |
| Strings.Pow10 | prepare_samples.py:21-22 | `10**n` is positive |
| Strings.Decimal | prepare_samples.py:151 | `str(n)` of a natural number is a non-empty string of decimal digits |
| Strings.DigitValue | prepare_samples.py:151 | the value of a digit character is below 10 |
| Strings.DecimalRoundTrip | prepare_samples.py:151 | reading back the decimal rendering of `n` gives `n` |
| Strings.DecimalLength | prepare_samples.py:151 | a number in `[10^(n-1), 10^n - 1]` renders with exactly `n` digits |
| Strings.LessEqReflexive | prepare_load_samples.py:56 | Python's string order, used by `sorted`, is reflexive |
| Strings.LessEqTotal | prepare_load_samples.py:56 | any two strings are ordered one way or the other |
| Strings.LessEqTransitive | prepare_load_samples.py:56 | the string order is transitive |
| Strings.LessEqAntisymmetric | prepare_load_samples.py:56 | two strings ordered both ways are equal |
| Strings.Insert | prepare_load_samples.py:56 | inserting into a sorted list keeps it sorted and adds exactly that element to the multiset |
| Strings.Sort | prepare_load_samples.py:56 | `sorted(...)` returns a sorted permutation of its input |
| Strings.DistinctCardinality | venclient/simulation/meterdata_simulator.py:264 | a list without repetitions has as many elements as the set of its elements |
| Values.Keys | venclient/client.py:424 | a dictionary's keys in insertion order, one per entry |
| Values.Lookup | venclient/context.py:52 | `d.get(k)` is `None` exactly when `k` is not a key |
| Values.LookupAt | venclient/context.py:52 | in a dictionary with unique keys, each entry is what its key looks up |
| Values.Put | venclient/client.py:424 | `d[k] = v`: a new key is appended last; an existing key keeps its position and the key list is unchanged |
| Values.PutLookup | venclient/client.py:424 | after `d[k] = v`, `k` looks up `v` and every other key looks up what it did before |
| Values.PutUnique | venclient/client.py:424 | assignment keeps the keys unique |
| Values.Collect | venclient/client.py:424 | the dictionary a comprehension builds from its items, assigning them in turn (its keys and values are stated by `CollectKeys`, `CollectUnique` and `CollectLast`) |
| Values.CollectKeys | venclient/client.py:424 | a dictionary comprehension has unique keys, exactly the keys of its items |
| Values.CollectUnique | venclient/client.py:424 | collecting items whose keys are already unique gives them back unchanged |
| Values.CollectLast | venclient/client.py:424 | in a comprehension a key holds the value of the last item with that key |
| FlexResources.ParseConnectionType | flex_resources.py:6-9 | `ConnectionType(s)` finds the member whose value is `s`, or fails |
| FlexResources.ParseActorType | flex_resources.py:12-14 | `ActorType(s)` finds the member whose value is `s`, or fails |
| FlexResources.ParseResourceType | flex_resources.py:16-18 | `ResourceType(s)` finds the member whose value is `s`, or fails |
| FlexResources.EnumRoundTrip | flex_resources.py:6-18 | every enumeration member is recovered from its value (so the values are distinct), and resource-type names are distinct |
| FlexResources.NewConnection | flex_resources.py:20-29 | a connection built from its two required fields has host, port, topic, file, username and password all `None` |
| FlexResources.NewResource | flex_resources.py:31-41 | a resource built from the seven required dataclass fields, plus the undeclared sub-type and address the callers pass, keeps all nine values, and `enabled`, `reporting` and the registration status default to `None` |
| FlexResources.EffectiveStatus | venclient/simulation/meterdata_simulator.py:122 | `registration_status or 'PENDING'`: a missing or empty status reads as PENDING, and any other status is kept |
| FlexResources.Capacities | flex_resources.py:59 | the capacity dictionary has the keys `P_max_kw`, `P_min_kw`, `E_max_kwh`, `E_min_kwh` in that order, unique, each holding its given value |
| FlexResources.ResourceFields | flex_resources.py:31-41 | `fields(resource)` lists exactly the nine declared fields `resourceID`, `resourceName`, `resourceType`, `meterPointId`, `connection`, `capacities`, `location`, `enabled`, `reporting`, in declaration order; the undeclared sub-type, address and registration status are not among them |
| FlexResources.LoadFlexibleResources | flex_resources.py:44-63 | the result has the single key `HOUSEHOLD_1`: a DSR resource with that id, `enabled` True, no reporting, a file-reader connection and capacities 6 / -6 / 24 / 0. The source passes no sub-type and no address, and the model fills both with empty strings |
| Utils.LowerRunEnd | venclient/utils.py:19 | the greedy `[a-z]+` run ends at the first non-lower-case position |
| Utils.CamelToSnake | venclient/utils.py:18-20 | the output of `camel_to_snake` contains no upper-case letter |
| Utils.FirstPassFrom | venclient/utils.py:19 | the first `re.sub` from a position on: at each leftmost match of `(.)([A-Z][a-z]+)` a `_` goes between the groups and scanning resumes after the greedy lower-case run; other characters are copied |
| Utils.FirstPass | venclient/utils.py:19 | the first substitution over the whole name |
| Utils.SecondPassFrom | venclient/utils.py:20 | the second `re.sub` from a position on: at each leftmost match of `([a-z0-9])([A-Z])` a `_` goes between the two characters and scanning resumes after them; other characters are copied |
| Utils.SecondPass | venclient/utils.py:20 | the second substitution over the whole name; its result has no lower-case letter or digit directly followed by a capital (`SecondPassNoHump`) |
| Utils.FirstPassInserts | venclient/utils.py:19 | the first substitution only inserts `_` characters |
| Utils.SecondPassInserts | venclient/utils.py:20 | the second substitution only inserts `_` characters |
| Utils.CamelToSnakeInserts | venclient/utils.py:18-20 | the output is the lower-cased input with `_` characters inserted, so it is never shorter than the input |
| Utils.FirstPassNoUpper | venclient/utils.py:19 | the first pattern never matches text without capitals, so such text is copied |
| Utils.SecondPassNoUpper | venclient/utils.py:20 | the second pattern never matches text without capitals, so such text is copied |
| Utils.CamelToSnakeOfSnake | venclient/utils.py:18-20 | a name without upper-case letters comes back unchanged |
| Utils.CamelToSnakeIdempotent | venclient/utils.py:18-20 | applying `camel_to_snake` twice gives the same result as applying it once |
| Utils.SecondPassNoHump | venclient/utils.py:20 | after the second pass no `[a-z0-9]` is directly followed by `[A-Z]` |
| Utils.FirstPassCopies | venclient/utils.py:19 | a stretch where the first pattern matches nowhere is copied unchanged |
| Utils.SecondPassCopies | venclient/utils.py:20 | a stretch where the second pattern matches nowhere is copied unchanged |
| Utils.FirstPassMeterPointId | venclient/utils.py:19 | the first pass turns `meterPointId` into `meter_PointId` |
| Utils.SecondPassMeterPointId | venclient/utils.py:20 | the second pass turns `meter_PointId` into `meter_Point_Id` |
| Utils.ExampleMeterPointId | venclient/utils.py:18-20 | `camel_to_snake("meterPointId") == "meter_point_id"` |
| Utils.FirstPassResourceId | venclient/utils.py:19 | the first pass leaves `resourceID` unchanged, because no capital is followed by a lower-case letter |
| Utils.SecondPassResourceId | venclient/utils.py:20 | the second pass turns `resourceID` into `resource_ID` |
| Utils.ExampleResourceId | venclient/utils.py:18-20 | `camel_to_snake("resourceID") == "resource_id"`: a trailing acronym stays one word |
| Context.ApplicationContext.constructor | venclient/context.py:24-29 | the first construction creates an empty registry |
| Context.ApplicationContext.Get | venclient/context.py:42-55 | `get(name)` returns the registered object, or `None` for a name never registered |
| Context.ApplicationContext.Has | venclient/context.py:57-59 | `has(name)` holds exactly for a listed name; a name it rejects looks up `None` |
| Context.ApplicationContext.ListRegistered | venclient/context.py:72-74 | the listed names are exactly the registered ones, each once, as many as there are keys |
| Context.ApplicationContext.Register | venclient/context.py:31-40 | the name now maps to the object and every other entry is unchanged; a new name is listed last, and a re-registered name keeps its place |
| Context.ApplicationContext.Unregister | venclient/context.py:61-65 | removes exactly that name (from the map and from the listing order); an absent name changes nothing |
| Context.ApplicationContext.Clear | venclient/context.py:67-70 | the registry and its listing are empty afterwards |
| Context.Without | venclient/context.py:64 | `del d[k]` drops `k` from the key order and keeps every other key |
| Context.WithoutMembers | venclient/context.py:64 | after `del d[k]` the key order still has no repetitions |
| Context.WithoutMissing | venclient/context.py:63 | deleting nothing keeps the key order |
| Context.ContextSlot.Construct | venclient/context.py:19-29 | the first `ApplicationContext()` creates a fresh empty registry; each later call returns that same instance with its objects untouched |
| Context.GetVenManager | venclient/context.py:97-99 | returns the object registered as `ven_manager` |
| Context.GetSimulator | venclient/context.py:102-104 | returns the object registered as `simulator` |
| Context.RegisterSharedObjects | venclient/context.py:31-39 | after registering the manager and the simulator, both names are listed and the two helpers return exactly those objects |
| Client.ProcessDict | venclient/client.py:421-428 | `process_dict`: keys converted at every depth, lists element by element, other values unchanged (its properties are the `ProcessDict…` lemmas below) |
| Client.ConvertedItems | venclient/client.py:424 | the comprehension's items: each key through `camel_to_snake` and each value through `process_dict`, position by position |
| Client.ProcessDictShape | venclient/client.py:421-428 | a list keeps its length and is processed element by element; a dictionary stays a dictionary; any other value is returned unchanged |
| Client.ProcessDictKeys | venclient/client.py:424 | the keys of a processed dictionary are exactly the converted keys of the original |
| Client.ProcessDictCollision | venclient/client.py:424 | when two keys convert to the same key, the later one's processed value wins |
| Client.ProcessDictSnake | venclient/client.py:421-428 | every dictionary in the result, at any depth, has unique keys with no upper-case letter |
| Client.CollectEntries | venclient/client.py:424 | every entry of a comprehension's result is one of its items |
| Client.PutEntries | venclient/client.py:424 | after an assignment, each entry is either the new pair or an entry from before |
| Client.ProcessDictOfSnake | venclient/client.py:421-428 | a value that already has unique snake-case keys everywhere is returned unchanged |
| Client.ProcessDictIdempotent | venclient/client.py:421-428 | `process_dict` is idempotent |
| Client.AttributesOf | venclient/client.py:466-472 | a processed dictionary field gives one attribute per key, named by that key and typed by its conversion; any other value gives one attribute named and typed by the converted field name; each has the one rendered value |
| Client.FieldAttributes | venclient/client.py:460-472 | a skipped id field gives no attribute; any other field gives the attributes of its processed value |
| Client.Flatten | venclient/client.py:459-472 | the attributes of a resource's fields, field by field in order |
| Client.AppendDictAttributes | venclient/client.py:466-469 | the loop over a processed dictionary field appends exactly that field's attributes |
| Client.BuildAttributes | venclient/client.py:458-472 | the attribute loop over a resource's fields builds the flattened attribute list |
| Client.BuildConfig | venclient/client.py:474 | the registration record carries the resource's id, name, type and flattened attributes |
| Client.FieldAttributesShape | venclient/client.py:463-472 | each attribute of a field has one rendered value, no upper-case letter in its type, and a type equal to its name. For a dictionary field the name is the key of the processed dictionary, which `process_dict` has already converted |
| Client.FlattenShape | venclient/client.py:459-472 | every attribute of a flattened resource has that shape |
| Client.DictFieldAttributes | venclient/client.py:466-469 | a dictionary field yields attributes for exactly the converted keys of its dictionary |
| Client.ScalarFieldAttribute | venclient/client.py:470-472 | a non-dictionary field yields one attribute, whose type and name are both the converted field name and whose value is the rendered value |
| Client.ResourceAttributesSkipIds | venclient/client.py:460-461 | `resourceID`, `resourceName` and `resourceType` contribute no attribute |
| Client.SkippedPrefix | venclient/client.py:460-461 | leading skipped fields do not change the attribute list |
| Client.SkippedAll | venclient/client.py:460-461 | a list of only skipped fields yields no attribute |
| Client.ResourceConfig | venclient/client.py:474 | the registration record of one resource: its id, name, type and flattened attributes |
| Client.Configs | venclient/client.py:457-475 | one registration record per resource |
| Client.ConfigsAt | venclient/client.py:474-475 | the `i`-th record is built from the `i`-th resource |
| Client.ConfigsStep | venclient/client.py:475 | each further resource appends its record at the end |
| Client.ClassifyRegistration | venclient/client.py:143-154 | status 201 is created, 409 means it already exists, and every other status is rejected; each holds exactly for its status |
| Client.CredentialsFrom | venclient/client.py:174-179 | credentials are read exactly when the reply body has `id`, `ven_name` and `auth_token`, and they carry those values |
| Client.ResourceAccepted | venclient/client.py:127-158 | a resource registration returns True exactly when a bearer token exists, the reply is 201 and its body decodes |
| Client.Acceptances | venclient/client.py:476-477 | records one result per registration sent |
| Client.AcceptancesAt | venclient/client.py:476-477 | the `i`-th result is whether the `i`-th registration was accepted |
| Client.AddNewEvents | venclient/client.py:221-223 | the tracked events after polling: each polled event is added under its id only if that id is not tracked yet |
| Client.AddNewEventsKeeps | venclient/client.py:221-223 | polling never overwrites or drops a tracked event; it tracks every polled id and nothing else |
| Client.AddNewEventsFirst | venclient/client.py:221-223 | a newly tracked id holds the first polled event with that id |
| Client.AddNewEventsSuffix | venclient/client.py:209-223 | events polled later keep what earlier events added |
| Client.DecodedPrefix | venclient/client.py:209-219 | the records decoded before the first one that raises, in order |
| Client.DecodedPrefixIs | venclient/client.py:209-219 | a decoded run that stops at the end or at a failing record is that prefix |
| Client.VenClient.constructor | venclient/client.py:100-108 | a new client has no credentials, no tracked events and no resources |
| Client.VenClient.AuthHeaders | venclient/client.py:118-125 | fails exactly when there are no credentials; otherwise exactly two headers, `Bearer <auth_token>` and the JSON content type |
| Client.VenClient.RegisterVen | venclient/client.py:160-193 | returns True exactly on a 201 reply whose body holds the credentials (with a bearer token), and then sets credentials from it; otherwise credentials are unchanged; events and resources are never touched |
| Client.VenClient.RegisterVenResource | venclient/client.py:127-158 | True exactly on a 201 reply with a body and a bearer token; 409, other statuses and failures give False |
| Client.VenClient.RegisterResources | venclient/client.py:457-477 | builds one record per resource in order, and each result is whether that resource's registration was accepted |
| Client.VenClient.StoreResources | venclient/client.py:478-479 | stores every record under its id, after what was stored before; credentials and events are unchanged |
| Client.VenClient.PollEvents | venclient/client.py:197-234 | on a 200 reply each decoded event is tracked only if its id is new and the decoded events are returned; on any other answer nothing is tracked and the result is empty; a record that fails to decode ends the call with an empty result, keeping what was tracked before it |
| Client.StoreConfigs | venclient/client.py:478-479 | the stored ids are the earlier ones plus the ids of the records |
| Client.StoreConfigsLast | venclient/client.py:478-479 | each stored id holds the last record carrying it |
| Client.CountTrue | venclient/client.py:480 | `sum(1 for result in results if result is True)`, positive exactly when some result holds (`CountTrueExists`) |
| Client.CountTrueExists | venclient/client.py:480-483 | the success count is positive exactly when some registration succeeded |
| Client.VenManager.constructor | venclient/client.py:326-332 | a new manager has no VENs |
| Client.VenManager.RegisterVenAndResources | venclient/client.py:430-483 | a fresh client is stored under the VEN id with config `Client_<id>`; credentials come from a 201 reply; the client's resources are all the built records, each stored under its id; the result is True exactly when at least one resource registration succeeded |
| PrepareSamples.RandomWithNDigits | prepare_samples.py:20-23 | for `n >= 1` a value in `[10^(n-1), 10^n - 1]`; for `n < 1` an error |
| PrepareSamples.NDigitsPrintWidth | prepare_samples.py:20-23 | such a value prints with exactly `n` digits |
| PrepareSamples.SpecifyMpid | prepare_samples.py:150-151 | a meter-point id is 18 digits: `707057500` followed by a 9-digit number of at least `10^8` |
| PrepareSamples.SpecifyVen | prepare_samples.py:155-161 | `specify_ven`: the city word of the stripped second-to-last comma part of the address (its properties are `SpecifyVenIsOneWord` and `SpecifyVenWithoutComma`) |
| PrepareSamples.SecondToLast | prepare_samples.py:157 | `add[len(add)-2]`: the second-to-last part, or, for a single part, index -1, which is that part |
| PrepareSamples.CityWord | prepare_samples.py:158-161 | the second space-separated word when there are at least two, otherwise the whole (single-word) text; never contains a space |
| PrepareSamples.SpecifyVenIsOneWord | prepare_samples.py:155-161 | the VEN name contains no comma and no space, and all its characters come from the address |
| PrepareSamples.SpecifyVenWithoutComma | prepare_samples.py:155-161 | an address without a comma is one part, so the city word is taken from the whole stripped address |
| PrepareSamples.CapacitiesFor | prepare_samples.py:54-85 | the capacity envelope chosen by resource type and lower-cased sub-type (stated rule by rule in `CapacityRules`) |
| PrepareSamples.CapacityRules | prepare_samples.py:54-85 | EV gives 22 / 0 / 100 / 0; otherwise, checked in order on the lower-cased sub-type: hotel or swimmingpool gives 50 / -20 / 200 / 0, industry or school gives 100 / -40 / 400 / 0, anything else 25 / -10 / 100 / 0 |
| PrepareSamples.MentionsContains | prepare_samples.py:65 | the sub-type test `word in subtype` is an occurrence at some position |
| PrepareSamples.CapacitiesEnvelope | prepare_samples.py:54-85 | every chosen envelope has `P_min <= 0 <= P_max`, `E_min == 0` and `E_max > 0` |
| PrepareSamples.CapacitiesIgnoreCase | prepare_samples.py:64 | the sub-type's letter case does not change the envelope |
| PrepareSamples.SampleConnection | prepare_samples.py:40-49 | the shared file-reader connection with an empty file name |
| PrepareSamples.BuildResource | prepare_samples.py:87-106 | the resource takes its id, title, type, sub-type, meter-point id and address from the row, has the capacities the rules choose, its location holds exactly the row's latitude and longitude, and it is enabled with no reporting |
| PrepareSamples.Converted | prepare_samples.py:52-108 | one pair per row |
| PrepareSamples.ConvertedAt | prepare_samples.py:94-108 | the `i`-th pair is the resource built from the `i`-th row, with that row's VEN |
| PrepareSamples.ConvertedStep | prepare_samples.py:108 | each row appends its pair at the end |
| PrepareSamples.ConvertToResources | prepare_samples.py:36-111 | exactly one (resource, VEN) pair per row, in row order |
| PrepareLoadSamples.LoadName | prepare_load_samples.py:83 | `LOAD_NAMES.get(component, f"Load {component}")` (stated by `LoadNameIdentifies`) |
| PrepareLoadSamples.LoadNameIdentifies | prepare_load_samples.py:83 | a load's name starts with `Load ` exactly when its component has no entry in `LOAD_NAMES`; the fallback name ends with the component; different components get different names |
| PrepareLoadSamples.LoadKeys | prepare_load_samples.py:56 | exactly the meter keys that start with `load_` |
| PrepareLoadSamples.LoadComponents | prepare_load_samples.py:56 | the load components are the meter's `load_` keys, sorted, as a permutation |
| PrepareLoadSamples.TotalLength | prepare_load_samples.py:82 | bounds the length of every id used so far |
| PrepareLoadSamples.FreshIdExists | prepare_load_samples.py:82 | a load id not yet used in the batch always exists |
| PrepareLoadSamples.LoadIds | prepare_load_samples.py:82 | the load ids of the batch, record by record |
| PrepareLoadSamples.CreateLoadRecords | prepare_load_samples.py:81-92 | appends exactly one record per component in order, for that resource and meter, with the component's name and no VTN id; earlier records are kept and all ids stay distinct |
| PrepareLoadSamples.GenerateResourceLoads | prepare_load_samples.py:49-92 | with no meter it fails; otherwise each resource gets a meter from the pool, there are exactly (resources × components) records, laid out resource by resource, each carrying its resource, component and that resource's meter, with distinct load ids |
| PrepareLoadSamples.BlockKept | prepare_load_samples.py:85-92 | appending records keeps every earlier resource's block |
| PrepareLoadSamples.NewBlock | prepare_load_samples.py:81-92 | the records appended for the next resource form its block |
| MeterdataSimulator.ParseStatus | venclient/simulation/meterdata_simulator.py:238-246 | a status string names a bucket only if it is that bucket's name |
| MeterdataSimulator.StatusRoundTrip | venclient/simulation/meterdata_simulator.py:238-243 | each bucket is found again from its name |
| MeterdataSimulator.NextIndex | venclient/simulation/meterdata_simulator.py:316-321 | the cursor after one step: one further, or back to 0 once it reaches the series length (stated by the `Advance…` and `NextIndexInRange` lemmas) |
| MeterdataSimulator.NextIndexInRange | venclient/simulation/meterdata_simulator.py:316-321 | in a non-empty series one step keeps the cursor inside `[0, L)` |
| MeterdataSimulator.AdvanceCompose | venclient/simulation/meterdata_simulator.py:316-321 | `a` steps then `b` steps are `a + b` steps |
| MeterdataSimulator.AdvanceForward | venclient/simulation/meterdata_simulator.py:316-321 | before the end of the series the cursor simply moves forward |
| MeterdataSimulator.AdvanceCycle | venclient/simulation/meterdata_simulator.py:316-325 | `L` consecutive steps bring the cursor back to where it started |
| MeterdataSimulator.LoadKey | venclient/simulation/meterdata_simulator.py:372 | `load_<k>` starts with `load_` |
| MeterdataSimulator.LoadKeyInjective | venclient/simulation/meterdata_simulator.py:372 | different component numbers give different keys |
| MeterdataSimulator.ReadingsUpTo | venclient/simulation/meterdata_simulator.py:369-388 | the readings of loads `0 .. k-1` at the cursor, skipping a missing load and a series too short for the cursor |
| MeterdataSimulator.Readings | venclient/simulation/meterdata_simulator.py:368-393 | the readings of one meter: loads below `num_load_components` (default 6), none for a count below 1 |
| MeterdataSimulator.ReadingsShape | venclient/simulation/meterdata_simulator.py:369-388 | at most `k` readings. Each is the row at the cursor of some present load below `k`, every such load has its reading in the list, and no two readings share a load id |
| MeterdataSimulator.SnapshotOf | venclient/simulation/meterdata_simulator.py:355-399 | a resource is reported exactly when its `meter_<id>` is in the source and has at least one reading at the cursor; the report carries its id, meter-point id and those readings |
| MeterdataSimulator.ReadMeter | venclient/simulation/meterdata_simulator.py:366-388 | the inner loop reads one reading per present load below `num_load_components` (default 6) whose series reaches the cursor; timestamp = seconds × 1000 |
| MeterdataSimulator.IdsOf | venclient/simulation/meterdata_simulator.py:113 | the ids of a VEN's resources, in catalog order |
| MeterdataSimulator.FirstTen | venclient/simulation/meterdata_simulator.py:108 | `ven_list[:10]` |
| MeterdataSimulator.Dedup | venclient/simulation/meterdata_simulator.py:108-113 | the key order of `vens` after assigning the listed VENs in turn: each VEN once, where it first occurs |
| MeterdataSimulator.DedupStep | venclient/simulation/meterdata_simulator.py:113 | a VEN assigned again keeps its position; a new one goes last |
| MeterdataSimulator.Moved | venclient/simulation/meterdata_simulator.py:227-243 | removing an id from a bucket and optionally adding it back changes only that id |
| MeterdataSimulator.OrderAfterLoad | venclient/simulation/meterdata_simulator.py:113 | loading a VEN keeps the key order free of repetitions |
| MeterdataSimulator.BucketsAfterLoad | venclient/simulation/meterdata_simulator.py:113-134 | loading a VEN keeps every VEN's buckets disjoint and holding only its own resources |
| MeterdataSimulator.StoreAfterLoad | venclient/simulation/meterdata_simulator.py:112-113 | loading a VEN keeps every loaded resource stored under its id |
| MeterdataSimulator.ShapedAfterLoad | venclient/simulation/meterdata_simulator.py:108-134 | one loading pass keeps the simulator's dictionaries consistent |
| MeterdataSimulator.SumsBalance | venclient/simulation/meterdata_simulator.py:263-288 | when each VEN's list is the size of its three buckets together, the resource total equals the three status totals |
| MeterdataSimulator.PartitionSize | venclient/simulation/meterdata_simulator.py:274-283 | a VEN's distinct resources split among three disjoint buckets number as many as the buckets' sizes together |
| MeterdataSimulator.Tally | venclient/simulation/meterdata_simulator.py:273-288 | the statistics loop gives each VEN its pending, approved and suspended counts and their sum, and running totals equal to the sums over the VENs |
| MeterdataSimulator.ComputeStats | venclient/simulation/meterdata_simulator.py:262-290 | `total_vens` is the number of loaded VENs; `total_resources` is the sum of their list lengths; `by_ven` has one line per loaded VEN; when every VEN is split among its buckets, each VEN's total is its number of resources and the status totals add up to the resource total |
| MeterdataSimulator.TotalsBalance | venclient/simulation/meterdata_simulator.py:263-288 | when every VEN's resources are split among its buckets, the status totals add up to the resource total |
| MeterdataSimulator.ById | venclient/simulation/meterdata_simulator.py:188 | `{r.resourceID: r for r in rows}`: each row is stored under its id, and nothing else is stored |
| MeterdataSimulator.SortIntoBuckets | venclient/simulation/meterdata_simulator.py:120-134 | every resource of the VEN lands in exactly one bucket: APPROVED (its status or a random promotion), SUSPENDED (status SUSPENDED, not promoted), or PENDING (a missing, PENDING or unknown status, not promoted); the buckets hold nothing else |
| MeterdataSimulator.CatalogOf | venclient/simulation/meterdata_simulator.py:112 | a VEN unknown to the catalog has no resources |
| MeterdataSimulator.CatalogDisjoint | resource_db.py:68 | with unique resource ids, each VEN's rows are distinct and two VENs share no id |
| MeterdataSimulator.StoredAsReadKept | venclient/simulation/meterdata_simulator.py:112-113 | storing another VEN's rows does not change this VEN's stored resources |
| MeterdataSimulator.VenLoadedKept | venclient/simulation/meterdata_simulator.py:108-134 | a loaded VEN stays loaded as read while other VENs are loaded |
| MeterdataSimulator.AllLoadedAfterLoad | venclient/simulation/meterdata_simulator.py:108-134 | after each loading pass every loaded VEN is as its catalog rows and bucketing made it |
| MeterdataSimulator.ApprovedIds | venclient/simulation/meterdata_simulator.py:151-153 | the approved ids across all loaded VENs, nothing else |
| MeterdataSimulator.AssignMeters | venclient/simulation/meterdata_simulator.py:149-158 | with a non-empty pool, every approved resource gets a meter from the pool; nothing else of any resource changes, and unapproved resources are untouched |
| MeterdataSimulator.StoreShapedRepointed | venclient/simulation/meterdata_simulator.py:157 | changing meters keeps every resource stored under its own id |
| MeterdataSimulator.IdAcrossVens | resource_db.py:68 | a resource id belongs to only one VEN |
| MeterdataSimulator.SettledAfterAssign | venclient/simulation/meterdata_simulator.py:148-163 | after meter assignment each resource of a VEN is still in its bucket, unchanged except that an approved one has a pool meter when the pool is non-empty |
| MeterdataSimulator.AllSettled | venclient/simulation/meterdata_simulator.py:148-163 | the same holds for every loaded VEN |
| MeterdataSimulator.AssignApproved | venclient/simulation/meterdata_simulator.py:148-163 | the meter-assignment pass leaves every loaded VEN settled |
| MeterdataSimulator.ViewOf | venclient/simulation/meterdata_simulator.py:188-194 | a view keyed exactly by the given ids, each holding its stored resource |
| MeterdataSimulator.MoveKeepsPartition | venclient/simulation/meterdata_simulator.py:219-243 | a move to a valid status keeps the VEN's resources split among its buckets, with the resource in the target bucket |
| MeterdataSimulator.MoveToUnknownDrops | venclient/simulation/meterdata_simulator.py:219-246 | with an invalid status the resource is in no bucket afterwards, so the VEN is no longer split among its buckets |
| MeterdataSimulator.ShapedAfterMove | venclient/simulation/meterdata_simulator.py:219-243 | a move keeps the simulator's dictionaries consistent |
| MeterdataSimulator.BucketsAfterMove | venclient/simulation/meterdata_simulator.py:219-243 | a move keeps every VEN's buckets disjoint and holding only its own resources |
| MeterdataSimulator.SumSizesStep | venclient/simulation/meterdata_simulator.py:286-288 | one more VEN adds its bucket size to the total |
| MeterdataSimulator.SumLengthsStep | venclient/simulation/meterdata_simulator.py:264 | one more VEN adds its list length to the resource total |
| MeterdataSimulator.MeterDataSimulator.constructor | venclient/simulation/meterdata_simulator.py:63-88 | the first construction fills the shared state: uninitialized and empty, with the cursor at 0 and no cached length |
| MeterdataSimulator.MeterDataSimulator.LoadVen | venclient/simulation/meterdata_simulator.py:109-134 | one pass of the loading loop: the VEN is (re)loaded from its catalog rows and bucketed; the other VENs stay as loaded; the key order gains the VEN only if it is new |
| MeterdataSimulator.MeterDataSimulator.Install | venclient/simulation/meterdata_simulator.py:113-118 | the dictionary assignments of one pass |
| MeterdataSimulator.MeterDataSimulator.SetStore | venclient/simulation/meterdata_simulator.py:157 | the resources after meter assignment |
| MeterdataSimulator.MeterDataSimulator.LoadVens | venclient/simulation/meterdata_simulator.py:108-139 | after the loop the loaded VENs are the listed ones in order of first occurrence, each loaded from its catalog rows |
| MeterdataSimulator.MeterDataSimulator.GiveApprovedMeters | venclient/simulation/meterdata_simulator.py:148-163 | every loaded VEN is settled: buckets as loaded, approved resources with pool meters when the pool is non-empty |
| MeterdataSimulator.MeterDataSimulator.InitializeResources | venclient/simulation/meterdata_simulator.py:90-166 | does nothing when already initialized; otherwise loads the first ten VENs of the list (the catalog's list when none is given), sets the meter pool (empty when listing fails), settles every VEN and marks the simulator initialized |
| MeterdataSimulator.MeterDataSimulator.Load | venclient/simulation/meterdata_simulator.py:102-165 | the body of `initialize_resources` for an uninitialized simulator |
| MeterdataSimulator.MeterDataSimulator.Settle | venclient/simulation/meterdata_simulator.py:141-165 | sets the pool, assigns the meters and marks initialized |
| MeterdataSimulator.MeterDataSimulator.GetVenResources | venclient/simulation/meterdata_simulator.py:168-197 | errors exactly when uninitialized; empty for an unknown VEN or an unknown filter; with no filter, all the VEN's resources by id; with a filter, exactly that bucket |
| MeterdataSimulator.MeterDataSimulator.FilteredViewsPartition | venclient/simulation/meterdata_simulator.py:186-194 | when the VEN is split among its buckets, the three filtered views split the unfiltered view |
| MeterdataSimulator.MeterDataSimulator.ExpectedOutcome | venclient/simulation/meterdata_simulator.py:208-246 | an update is reported as done only for a valid status |
| MeterdataSimulator.MeterDataSimulator.UpdateResourceStatus | venclient/simulation/meterdata_simulator.py:199-251 | not initialized, unknown VEN and unknown resource change nothing. Otherwise the resource leaves its bucket and its status field is set. A valid status puts it only in the target bucket, writes the catalog, and keeps a split VEN split. An invalid status leaves it in no bucket, with no catalog write |
| MeterdataSimulator.MeterDataSimulator.Move | venclient/simulation/meterdata_simulator.py:219-249 | the removal, status write, insertion and catalog write of a found resource |
| MeterdataSimulator.MeterDataSimulator.Rebucket | venclient/simulation/meterdata_simulator.py:227-249 | the dictionary assignments of a move |
| MeterdataSimulator.MeterDataSimulator.UpdateResourceStatusChecked | venclient/simulation/meterdata_simulator.py:199-251 | the corrected update: an invalid status changes nothing, so a split VEN stays split whatever the outcome |
| MeterdataSimulator.MeterDataSimulator.GetStatistics | venclient/simulation/meterdata_simulator.py:253-290 | the error record exactly when uninitialized; otherwise the statistics `ComputeStats` gives for the current state |
| MeterdataSimulator.MeterDataSimulator.IncreaseTime | venclient/simulation/meterdata_simulator.py:292-325 | errors when uninitialized or when the length must be read and cannot be; otherwise the length is cached and the cursor takes one cyclic step, and the new cursor is returned |
| MeterdataSimulator.MeterDataSimulator.CollectNextMetering | venclient/simulation/meterdata_simulator.py:327-410 | errors exactly when uninitialized; empty for an unknown VEN; otherwise exactly the approved resources with readings at the cursor, each with its snapshot; the cursor is not changed |
| MeterdataSimulator.MeterDataSimulator.Reset | venclient/simulation/meterdata_simulator.py:412-423 | clears every dictionary and the meter pool, sets the cursor to 0, empties the cached length and marks the simulator uninitialized |
| MeterdataSimulator.MeterDataSimulator.GetVenList | venclient/simulation/meterdata_simulator.py:426-433 | exactly the loaded VENs, each once, as many as there are |
| MeterdataSimulator.SimulatorSlot.constructor | venclient/simulation/meterdata_simulator.py:50 | before the first construction nothing is shared |
| MeterdataSimulator.SimulatorSlot.Construct | venclient/simulation/meterdata_simulator.py:50-88 | the first `MeterDataSimulator()` creates the shared state from its catalog; every later one returns that same state unchanged and ignores its arguments |
| MeterdataSimulator.InitializeSimulator | venclient/simulation/meterdata_simulator.py:437-452 | returns the shared simulator, always initialized. If the shared state did not exist yet or was not initialized, it is loaded with the given VEN list. If it was already initialized, it is returned unchanged and the VEN list and the database path are ignored |

## Left out

- The SQLite resource database (resource_db.py) is a map from VEN to resource rows. SQL text, JSON columns and transactions are not modelled.
- The simulator calls `db.get_ven_list()` (meterdata_simulator.py:104) and `db.update_resource_status()` (meterdata_simulator.py:249). The `ResourceDatabase` class in resource_db.py defines neither method, so as the program stands both calls raise `AttributeError`. The one at :249 raises after the resource has already been moved between buckets. The model assumes a catalog that provides both methods. The VEN list is the `catalogVens` parameter, and the status write is recorded in the simulator's `statusWrites` map.
- The model assumes an extended data model: a `ResourceType` member `EV` and the `Resource` fields `resourceSubType`, `address` and `registration_status`. flex_resources.py declares none of them (the enum at :16-18, the dataclass at :32-41). As the program stands, `ResourceType.EV.name` at prepare_samples.py:54 raises `AttributeError`, so `convert_to_resources` raises on every non-empty input. The keyword arguments `resourceSubType` and `address` at prepare_samples.py:98/103 and resource_db.py:363/368 raise `TypeError`, so `_row_to_resource`, and with it `get_resources_by_ven`, raises for any VEN that has rows. meterdata_simulator.py:122 reads `registration_status`, which neither the dataclass nor `_row_to_resource` sets. The model gives the record these fields, and `FlexResources.ResourceFields` still lists only the nine declared ones.
- PrepareSamples.CapacitiesFor: models the evidently intended comparison with the name `"EV"`; as written, `ResourceType.EV.name` (prepare_samples.py:54) raises `AttributeError` because the enum has no `EV` member.
- PrepareSamples.BuildResource: models the evidently intended construction with a sub-type and an address; as written, reaching it needs prepare_samples.py:54 to pass, and `Resource(resourceSubType=..., address=...)` (prepare_samples.py:98/103) raises `TypeError` against the dataclass at flex_resources.py:32-41.
- PrepareSamples.ConvertToResources: models the evidently intended loop; as written, it raises `AttributeError` at prepare_samples.py:54 on the first row, so only the empty input returns (an empty list).
- MeterdataSimulator.MeterDataSimulator.constructor: models only the first construction, which fills the shared state. The Borg sharing itself is `SimulatorSlot.Construct`.
- The h5py file access is not modelled. The reading source is a map from meter key to its load series. Listing the meters and probing the series length are parameters whose failure is `None`. `PrepareLoadSamples.GenerateResourceLoads` takes the key list of the first meter (`meters_group[available_meters[0]].keys()`, prepare_load_samples.py:55-56) as its `firstMeterKeys` parameter, and no contract ties that list to `meters[0]`. `list_meters` and `locating_h5file` in venclient/simulation/h5data.py are not part of this model.
- The source takes the series length from `load_0` of the first meter the file lists. `MeterDataSimulator.IncreaseTime` takes it as the `seriesLength` parameter instead, because group key order is a property of the file.
- Logging, `print` and the aiohttp session lifecycle (`__aenter__`/`__aexit__`) are not modelled. HTTP request bodies, URLs and the other network-only methods of client.py are left out as well. Each server answer is an `HttpOutcome` parameter.
- `asyncio.gather` is modelled as the registrations running one after another. Concurrency, the polling thread, threads and event loops are not modelled.
- Randomness is a free choice, not a distribution. This covers the 10 % promotion, `random.choice`, `randint` and `uuid4`.
- Power values, coordinates and capacities are `real`. Floating-point rounding, and the `int(seconds * 1000)` truncation of a fractional timestamp, are not modelled. Timestamps are whole seconds.
- `str()` of a value is the `render` parameter. The model does not fix Python's repr format.
- Python dictionaries are Dafny maps where the model does not track key order. This covers the buckets, the result of `collect_next_metering`, and `by_ven` in the statistics. Where the model relies on order, it is recorded.
- MeterdataSimulator.MeterDataSimulator.GetVenResources: with a status filter the source returns the live bucket dictionary itself (meterdata_simulator.py:190-194), so a caller sees later moves through it and sees its insertion order. demo_simulator.py:100 takes its first key. The model returns a map value instead, which loses both the aliasing and the key order.
- `MeterdataSimulator.MeterDataSimulator.CollectNextMetering` does not model reading errors raised by the file, because the reading source is a map.
- Strings are ASCII as `re` sees them. The regex classes `[A-Z]`, `[a-z]` and `[0-9]`, and `str.lower`, are stated on ASCII letters only.
- `specify_ven`'s fallback `"Unknown"` is not reachable, because `str.split(" ")` never returns an empty list. `PrepareSamples.CityWord` has no such branch.
- `random_with_N_digits(n)` for `n < 1` raises in Python, because `randint` rejects the non-integer bound `10**(n-1)`. `PrepareSamples.RandomWithNDigits` returns an error for it, without the exact message.
- The rest of the repository is not modelled: demo, test and migration scripts, the schedulers, `get_smart_response` (a random weighted choice), OAuth token retrieval and environment reads.

## Findings

| source | as written | input that shows it | evidently intended | confidence | as-written member | corrected member |
|---|---|---|---|---|---|---|
| venclient/simulation/meterdata_simulator.py:219-246 | the resource is deleted from its bucket and its status field overwritten before the new status is validated; an invalid status then returns, leaving the resource in no bucket although it is still in the VEN's list | `update_resource_status(v, id, "ACTIVE")` for a resource `id` of a loaded VEN `v` | validate the status first, and leave the resource where it was when the status is invalid | not executed | MeterdataSimulator.MoveToUnknownDrops | MeterdataSimulator.MeterDataSimulator.UpdateResourceStatusChecked |
