# disk2iso MQTT widgets — a Dafny model

disk2iso's web interface has an MQTT add-on. It is made of three Flask pieces:

- a blueprint that reads, tests and saves the broker settings through `libmqtt.sh`;
- a settings-widget blueprint that does the same with its own handlers;
- two widget blueprints: one reports the MQTT service status, the other lists the MQTT tools in the software inventory.

Three browser scripts sit on the other side:

- the settings form: auto-save, the save indicator, the connection test and the password reveal;
- the status card on the index page;
- the dependencies table.

This project models those handlers and scripts in Dafny and proves what they do:

- which reply each handler gives for each outcome of its shell call;
- which record the form posts;
- what the indicator, the card and the table show after each reply.

Modules:

- `Values`: JSON values, with Python's and JavaScript's ways of reading them (last duplicate wins, truthiness, property access).
- `Numbers`: JavaScript's `parseInt` (ECMAScript section 19.2.5, base 10 and `0x`) and Python's `int()` on strings.
- `PyRuntime`: exceptions, `dict.get`, `int()`, a subprocess run and a Flask reply.
- `RoutesMqtt`, `SettingsMqtt`, `StatusMqtt`, `DependenciesMqtt`: the four Python files.
- `Browser`: what a `fetch` + `response.json()` yields.
- `SettingsWidget`, `StatusWidget`, `DependenciesWidget`: the three scripts.
  - Page elements the scripts change in place are classes with `modifies` clauses.
  - A timer is either a pending counter or a handle, fired by a method of its own.
  - `SaveIndicator`, `PasswordFields`, `StatusCard` and `DependencyTable` have methods proved equal to a specification function of the old state.
  - `SettingsForm`, `TestPanel` and `ServiceGrid` have methods whose contracts state each field's new value directly.
- `Pipeline`: the scripts and the handlers together, a reply travelling back through `fetch`.

## Model

| member | source | states |
|---|---|---|
| Values.LookupFindsLast | www/routes/routes_mqtt.py:47-51 | a key is found iff some member has it, and the value found is that of the last member with the key |
| Values.Lookup | www/routes/routes_mqtt.py:47-51 | the definition of a dict lookup over a member list, scanning from the front so that a later duplicate replaces an earlier one; LookupFindsLast states its result |
| Values.PyGet | www/routes/widgets/settings_mqtt.py:97-101 | the definition of `dict.get(key, default)`: the stored value if the key is present, the default otherwise |
| Values.PyTruthy | www/routes/routes_mqtt.py:86 | the definition of Python truthiness: null, false, 0, the empty string, list and dict are false |
| Values.JsTruthy | www/static/js/widgets/dependencies_4x2_mqtt.js:11 | the definition of JavaScript truthiness of a property read: undefined, null, false, 0 and the empty string are false, every list and object true |
| Values.Property | www/static/js/widgets/dependencies_4x2_mqtt.js:11 | a property read finds something only on an object |
| Values.LookupAt | www/routes/routes_mqtt.py:47-51 | a member no later member overrides is what its key looks up |
| Values.LookupAbsent | www/routes/routes_mqtt.py:47-51 | a key no member has looks up nothing |
| Values.LookupAppend | www/routes/widgets/status_mqtt.py:69-74 | a member appended last decides the lookup of its key and of no other key |
| Values.LookupConcat | www/routes/widgets/status_mqtt.py:69-74 | in a merged dict the later part wins wherever it has the key, the earlier part elsewhere |
| Values.Keys | www/routes/widgets/dependencies_mqtt.py:65 | a dict iterates over each of its keys exactly once |
| Values.KeysWithoutDuplicates | www/routes/widgets/dependencies_mqtt.py:65 | without duplicate keys, a dict iterates over its members in document order |
| Values.TruthinessDiffersOnlyOnEmptyContainers | www/static/js/widgets/dependencies_4x2_mqtt.js:11 | Python's and JavaScript's truthiness disagree exactly on an empty list and an empty dict |
| Numbers.Decimal | www/static/js/widgets/settings_4x7_mqtt.js:315 | the decimal text of n is all digits, has no leading zero unless n is 0, and has the value n |
| Numbers.ParseInt | www/static/js/widgets/settings_4x7_mqtt.js:315 | the definition of `parseInt` without a radix: leading white space skipped, an optional sign, base 16 after 0x, digits read up to the first non-digit, NaN without a digit; the ParseInt lemmas state its properties |
| Numbers.TrimmedSuffix | www/static/js/widgets/settings_4x7_mqtt.js:315 | parseInt's trimming removes only leading white space and keeps the rest of the text |
| Numbers.DigitPrefixOfDigits | www/static/js/widgets/settings_4x7_mqtt.js:315 | parseInt's digit scan stops exactly at the first non-digit |
| Numbers.ParseIntUnsigned | www/static/js/widgets/settings_4x7_mqtt.js:315 | text starting with neither white space nor a sign is read as a magnitude directly |
| Numbers.MagnitudeOfDigits | www/static/js/widgets/settings_4x7_mqtt.js:315 | a run of digits followed by a non-digit is read as its value, in base 10 |
| Numbers.ParseIntDecimal | www/static/js/widgets/settings_4x7_mqtt.js:315 | parseInt reads back every decimal number, whatever non-digit text follows it |
| Numbers.ParseIntNegativeDecimal | www/static/js/widgets/settings_4x7_mqtt.js:315 | parseInt reads a minus sign and a decimal number as the negated number |
| Numbers.ParseIntSkipsWhiteSpace | www/static/js/widgets/settings_4x7_mqtt.js:315 | leading white space does not change what parseInt reads |
| Numbers.ParseIntMinus | www/static/js/widgets/settings_4x7_mqtt.js:315 | a leading minus negates whatever magnitude follows, and NaN stays NaN |
| Numbers.ParseIntHexPrefix | www/static/js/widgets/settings_4x7_mqtt.js:233 | with no radix, 0x followed by hex digits reads their base-16 value, stopping at the first character that is not a hex digit |
| Numbers.ParseIntNeedsADigit | www/static/js/widgets/settings_4x7_mqtt.js:233 | text without a digit, the empty field included, is NaN |
| Numbers.DropUnderscoresOfDigits | www/routes/widgets/settings_mqtt.py:99 | text of plain digits is unchanged by the underscore removal |
| Numbers.PyIntOfString | www/routes/widgets/settings_mqtt.py:99 | the definition of `int()` on a str: white space stripped (ASCII tab to carriage return and space, and the Unicode spaces above ASCII; not U+001C to U+001F), an optional sign, then digits with single underscores between them; the PyInt lemmas state its properties |
| Numbers.StripPyInfix | www/routes/widgets/settings_mqtt.py:99 | int()'s stripping cuts only white space off either end and keeps the middle as it is |
| Numbers.PyIntFails | www/routes/widgets/settings_mqtt.py:99 | int() fails exactly when the text after the optional sign is not digits with single underscores between them |
| Numbers.StripPyKeeps | www/routes/widgets/settings_mqtt.py:99 | int() strips nothing from text that neither starts nor ends with white space |
| Numbers.PyIntOfMinus | www/routes/widgets/settings_mqtt.py:99 | after stripping, a leading minus makes int() negate the literal after it |
| Numbers.PyIntOfUnsigned | www/routes/widgets/settings_mqtt.py:99 | after stripping, unsigned text is read as one literal |
| Numbers.PyUnsignedOfDigits | www/routes/widgets/settings_mqtt.py:99 | a plain run of digits is a literal denoting its value |
| Numbers.PyIntOfDigits | www/routes/widgets/settings_mqtt.py:99 | int() reads a run of digits as its value |
| Numbers.PyIntOfMinusDigits | www/routes/widgets/settings_mqtt.py:99 | a minus sign before text ending in a digit makes int() negate the literal after the sign |
| Numbers.PyIntOfDecimal | www/routes/widgets/settings_mqtt.py:99 | int() reads back every integer written in decimal |
| Numbers.PyIntStripsWhiteSpace | www/routes/widgets/settings_mqtt.py:99 | int() reads back every integer rendered in decimal whatever Python white space surrounds it |
| Numbers.StripPyPadded | www/routes/widgets/settings_mqtt.py:99 | text framed by runs of white space strips to the text itself |
| Numbers.UnderscoreJoined | www/routes/widgets/settings_mqtt.py:99 | two digit runs joined by one underscore form a literal whose digits are the two runs |
| Numbers.DropUnderscoresAppend | www/routes/widgets/settings_mqtt.py:99 | removing underscores distributes over concatenation |
| Numbers.PyIntIgnoresUnderscore | www/routes/widgets/settings_mqtt.py:99 | a single underscore between two digit runs does not change the value int() reads |
| Numbers.PyIntRejectsStrayCharacter | www/routes/widgets/settings_mqtt.py:99 | a character that is not a digit, underscore, white space or sign anywhere in the text makes int() fail, a 0x prefix and a decimal point included |
| Numbers.PyIntRejectsDoubledUnderscore | www/routes/widgets/settings_mqtt.py:99 | two underscores in a row anywhere in the text make int() fail |
| PyRuntime.FailureReply | www/routes/widgets/settings_mqtt.py:134-138 | the error reply carries the given status, success false and the message as its error |
| PyRuntime.Str | www/routes/widgets/settings_mqtt.py:134-138 | the definition of `str(e)` for each modelled exception: the message Python prints for it |
| PyRuntime.DictGet | www/routes/widgets/settings_mqtt.py:97-101 | get raises AttributeError exactly when the body is not a dict, and otherwise yields the stored value or the default |
| PyRuntime.PyInt | www/routes/widgets/settings_mqtt.py:99 | int() keeps integers and raises TypeError on null, lists and dicts |
| PyRuntime.PyIntRoundTrip | www/routes/widgets/settings_mqtt.py:99 | int() reads back an integer and its decimal text |
| PyRuntime.PyIntRejectsText | www/routes/widgets/settings_mqtt.py:99 | int() of a str holding a stray character (not a digit, underscore, white space or sign) raises ValueError quoting the text |
| PyRuntime.GetJson | www/routes/widgets/settings_mqtt.py:94 | reading the body succeeds exactly when the request carries a JSON body |
| RoutesMqtt.ConfigJson | www/routes/routes_mqtt.py:46-52 | the settings dict has exactly the five setting keys, each holding its field |
| RoutesMqtt.ExportedDict | www/routes/routes_mqtt.py:43-44 | the definition of the exported dict: present exactly when the export exits with 0 and prints a JSON object |
| RoutesMqtt.GetMqttConfig | www/routes/routes_mqtt.py:21-70 | a nonzero exit, unparsable output, a non-dict or an exception all give the default settings |
| RoutesMqtt.GetMqttConfigReadsEachKey | www/routes/routes_mqtt.py:46-52 | each exported setting is copied as it is, and each missing one takes its default |
| RoutesMqtt.GetMqttConfigIgnoresOtherKeys | www/routes/routes_mqtt.py:46-52 | keys outside the five settings do not change the settings read |
| RoutesMqtt.GetSettings | www/routes/routes_mqtt.py:73-75 | the legacy reader gives the same settings |
| RoutesMqtt.ApiMqttWidget | www/routes/routes_mqtt.py:84-90 | the widget status is active and running exactly when MQTT is enabled, inactive and stopped otherwise |
| RoutesMqtt.ApiMqttSettingsWidget | www/routes/routes_mqtt.py:102-113 | every request fails with NameError for `config` |
| RoutesMqtt.ApiMqttSettingsWidgetIntended | www/routes/routes_mqtt.py:102-113 | the page is rendered from the loaded settings, the defaults when the export fails |
| RoutesMqtt.SettingsPageFailsOnDefaults | www/routes/routes_mqtt.py:108-111 | with the export failing, the intended page shows the defaults and the written one fails |
| RoutesMqtt.RelayToLibrary | www/routes/routes_mqtt.py:135-158 | the library's JSON passes through with 200 whatever its exit status; non-JSON output gives 500, a timeout 408, any other error 500 with its text |
| RoutesMqtt.ApiMqttTest | www/routes/routes_mqtt.py:116-158 | the relay with the test's own messages for invalid output and timeout |
| RoutesMqtt.ApiMqttSave | www/routes/routes_mqtt.py:186-231 | the relay with the save's own messages for invalid output and timeout |
| RoutesMqtt.StatusMembers | www/routes/routes_mqtt.py:177-183 | the status dict lists enabled, broker, port, authenticated and status, in that order |
| RoutesMqtt.StatusBody | www/routes/routes_mqtt.py:177-183 | each status entry reads back the setting it was built from |
| RoutesMqtt.StatusBodyHasNoRunning | www/routes/routes_mqtt.py:177-183 | the status dict has no `running` entry |
| RoutesMqtt.ApiMqttStatus | www/routes/routes_mqtt.py:161-183 | enabled, broker and port as stored; authenticated iff a user is set; status active iff enabled |
| RoutesMqtt.StatusWithoutExport | www/routes/routes_mqtt.py:53-70 | without a readable export the status is disabled, empty broker, port 1883, unauthenticated, inactive |
| SettingsMqtt.GetMqttSettings | www/routes/widgets/settings_mqtt.py:22-71 | the widget blueprint's reader agrees with the main blueprint's reader on every run |
| SettingsMqtt.ApiMqttSettingsWidget | www/routes/widgets/settings_mqtt.py:74-85 | the page is always rendered, from the settings just read |
| SettingsMqtt.NormaliseSave | www/routes/widgets/settings_mqtt.py:97-101 | a non-dict body raises AttributeError; otherwise it succeeds iff int() accepts the port, the port is int()'s value and a failure is int()'s own error, and the other four values or their defaults are kept |
| SettingsMqtt.NormaliseSaveDefaults | www/routes/widgets/settings_mqtt.py:97-101 | an empty body gives disabled, no broker, port 1883 and no credentials |
| SettingsMqtt.NormaliseSaveRoundTrip | www/routes/widgets/settings_mqtt.py:97-101 | a settings dict with an integer port passes unchanged |
| SettingsMqtt.NormaliseSaveBadPort | www/routes/widgets/settings_mqtt.py:99 | a string port holding a stray character makes the normalisation raise, and the save answers 500 with int()'s ValueError message quoting the port |
| SettingsMqtt.SaveSettingsJson | www/routes/widgets/settings_mqtt.py:104-110 | the dict has exactly the five setting keys, each holding its normalised value, the port as an integer |
| SettingsMqtt.SaveStdin | www/routes/widgets/settings_mqtt.py:116 | building the library input raises NameError for `config` |
| SettingsMqtt.SaveStdinIntended | www/routes/widgets/settings_mqtt.py:104-116 | the library gets exactly the five setting keys, each holding its normalised value, the port as an integer |
| SettingsMqtt.SaveReply | www/routes/widgets/settings_mqtt.py:122-138 | 200 with success, message and restart_required iff the library exits 0; its stderr with 500 otherwise; 500 with the text of an exception |
| SettingsMqtt.ApiMqttSave | www/routes/widgets/settings_mqtt.py:88-138 | every request gets 500 with success false: the NameError once the body normalises, the body's own error before that |
| SettingsMqtt.ApiMqttSaveIntended | www/routes/widgets/settings_mqtt.py:88-138 | 200 iff the body normalises and the library exits 0; the library's reply once the body normalises |
| SettingsMqtt.SaveRejectsWellFormedBody | www/routes/widgets/settings_mqtt.py:116 | a body the intended handler saves with 200 gets 500 as written |
| SettingsMqtt.NormaliseTest | www/routes/widgets/settings_mqtt.py:150-155 | a non-dict body raises AttributeError; otherwise it succeeds iff int() accepts the port, the port is int()'s value and a failure is int()'s own error, and the other three values or their defaults are kept |
| SettingsMqtt.NormaliseTestDefaults | www/routes/widgets/settings_mqtt.py:150-155 | an empty body gives no broker, port 1883 and no credentials |
| SettingsMqtt.NormaliseTestNullPort | www/routes/widgets/settings_mqtt.py:152 | a null port makes int() raise TypeError |
| SettingsMqtt.TestStdin | www/routes/widgets/settings_mqtt.py:161 | building the library input raises NameError for `config` |
| SettingsMqtt.TestStdinIntended | www/routes/widgets/settings_mqtt.py:150-161 | the library gets exactly the four test setting keys, each holding its normalised value, the port as an integer |
| SettingsMqtt.TestReply | www/routes/widgets/settings_mqtt.py:167-182 | success iff the library exits 0; a failure carries stderr or 'Verbindung fehlgeschlagen' with status 200; an exception gives 500 |
| SettingsMqtt.ApiMqttTest | www/routes/widgets/settings_mqtt.py:141-182 | every request gets 500 with success false |
| SettingsMqtt.ApiMqttTestIntended | www/routes/widgets/settings_mqtt.py:141-182 | 200 iff the body normalises and the library ran; the library's reply once the body normalises |
| SettingsMqtt.TestRejectsWellFormedBody | www/routes/widgets/settings_mqtt.py:161 | a body the intended handler answers with 200 gets 500 as written |
| StatusMqtt.ErrorStatus | www/routes/widgets/status_mqtt.py:53-58 | the error fallback says error, disconnected, disabled and keeps the exception text |
| StatusMqtt.GetMqttStatus | www/routes/widgets/status_mqtt.py:33-58 | the parsed output on exit 0; the unknown fallback on any other exit; the error fallback on an exception or bad output |
| StatusMqtt.ApiMqttStatus | www/routes/widgets/status_mqtt.py:61-74 | a reply iff the status is a dict, TypeError otherwise; the timestamp is the request time; each other key comes from the status if present, else from the reply's head |
| StatusMqtt.ReplyHeadWhenNotOverridden | www/routes/widgets/status_mqtt.py:69-74 | without those keys in the status, the reply says success and names the mqtt service |
| StatusMqtt.StatusOverridesSuccess | www/routes/widgets/status_mqtt.py:72 | a status saying success false overrides the reply's success |
| StatusMqtt.ReplyOnNonzeroExit | www/routes/widgets/status_mqtt.py:44-50 | a failed status call is reported as success with status unknown, disconnected |
| StatusMqtt.ReplyOnException | www/routes/widgets/status_mqtt.py:51-58 | an exception is reported as success with status error and its text |
| StatusMqtt.ListStatusIsUncaught | www/routes/widgets/status_mqtt.py:72 | a JSON list as status raises TypeError: not a mapping |
| DependenciesMqtt.GetSoftwareInfo | www/routes/widgets/dependencies_mqtt.py:34-49 | the parsed inventory on exit 0, an empty dict on anything else |
| DependenciesMqtt.FilterTools | www/routes/widgets/dependencies_mqtt.py:67-69 | every tool kept is a dict with a listed name; a non-dict tool raises AttributeError on get |
| DependenciesMqtt.FilterToolsIsSelected | www/routes/widgets/dependencies_mqtt.py:67-69 | on a list of dicts the loop keeps exactly the listed tools, in order; any non-dict makes it raise |
| DependenciesMqtt.FilterToolsRaisePersists | www/routes/widgets/dependencies_mqtt.py:67-69 | once a tool raises, the tools after it change nothing |
| DependenciesMqtt.Whitelisted | www/routes/widgets/dependencies_mqtt.py:61 | the definition of the name test: the tool's `name` is one of the four MQTT tool names |
| DependenciesMqtt.Kept | www/routes/widgets/dependencies_mqtt.py:68 | the definition of a kept tool: a dict that passes the name test |
| DependenciesMqtt.SelectedAppend | www/routes/widgets/dependencies_mqtt.py:67-69 | selecting from a concatenation concatenates the selections |
| DependenciesMqtt.Collect | www/routes/widgets/dependencies_mqtt.py:64-69 | every tool collected over the categories is a dict with a listed name |
| DependenciesMqtt.CollectIsFlattened | www/routes/widgets/dependencies_mqtt.py:64-69 | without a bad category the result is each list category's listed tools, in category order; with one it raises |
| DependenciesMqtt.CollectRaisePersists | www/routes/widgets/dependencies_mqtt.py:64-69 | once a category raises, later categories change nothing |
| DependenciesMqtt.FlattenedAppend | www/routes/widgets/dependencies_mqtt.py:64-69 | the reference flattening distributes over concatenated category lists |
| DependenciesMqtt.DependenciesBody | www/routes/widgets/dependencies_mqtt.py:71-75 | the reply says success and carries the software list and the timestamp |
| DependenciesMqtt.DependenciesReply | www/routes/widgets/dependencies_mqtt.py:53-75 | a reply lists only kept tools; an inventory that is not a dict raises AttributeError on items; a dict whose list categories hold only dicts answers 200 with the flattened selection in category and list order; a list holding a non-dict makes the request raise |
| DependenciesMqtt.KeepMqttTools | www/routes/widgets/dependencies_mqtt.py:67-69 | the inner loop computes the filter of one category's list |
| DependenciesMqtt.ApiDependencies | www/routes/widgets/dependencies_mqtt.py:53-75 | the nested loops compute the handler's reply |
| DependenciesMqtt.FailedInventoryGivesEmptyList | www/routes/widgets/dependencies_mqtt.py:44-49 | a failed inventory call gives success with an empty list |
| DependenciesMqtt.ListInventoryIsUncaught | www/routes/widgets/dependencies_mqtt.py:65 | an inventory that is a JSON list raises AttributeError |
| DependenciesMqtt.PublisherNotWhitelisted | www/routes/widgets/dependencies_mqtt.py:61 | a tool named mosquitto_pub is never kept |
| SettingsWidget.PortOr1883 | www/static/js/widgets/settings_4x7_mqtt.js:315 | the port is never 0; a nonzero parsed number is kept; NaN and 0 give 1883 |
| SettingsWidget.PortOfEmptyField | www/static/js/widgets/settings_4x7_mqtt.js:315 | an empty field gives 1883 |
| SettingsWidget.PortOfZero | www/static/js/widgets/settings_4x7_mqtt.js:315 | a field holding 0 gives 1883 |
| SettingsWidget.PortWithTrailingText | www/static/js/widgets/settings_4x7_mqtt.js:315 | text after a nonzero number is ignored: "8883abc" is port 8883 |
| SettingsWidget.PortOfDecimal | www/static/js/widgets/settings_4x7_mqtt.js:315 | every nonzero decimal number is kept, negative ones included |
| SettingsWidget.CollectMqttConfig | www/static/js/widgets/settings_4x7_mqtt.js:308-319 | enabled and broker are copied; the port has the fallback; credentials are sent only with authentication on |
| SettingsWidget.TestPayload | www/static/js/widgets/settings_4x7_mqtt.js:231-236 | the same credential rule, and the port is parseInt's result, NaN included |
| SettingsWidget.PayloadsDifferOnlyInPortFallback | www/static/js/widgets/settings_4x7_mqtt.js:231-236 | the test and save records agree except where the save record falls back to 1883 |
| SettingsWidget.SaveBody | www/static/js/widgets/settings_4x7_mqtt.js:160 | the posted JSON holds each record field under its setting key |
| SettingsWidget.TestBody | www/static/js/widgets/settings_4x7_mqtt.js:243 | the posted JSON holds each test field, with NaN written as null |
| SettingsWidget.JsString | www/static/js/widgets/settings_4x7_mqtt.js:252 | a string converts to itself |
| SettingsWidget.Concatenated | www/static/js/widgets/settings_4x7_mqtt.js:252 | a missing error reads "undefined" and a string error reads as itself |
| SettingsWidget.JsStringOfIntReadsBack | www/static/js/widgets/settings_4x7_mqtt.js:252 | a number converted to text parses back to itself |
| SettingsWidget.ColorFor | www/static/js/widgets/settings_4x7_mqtt.js:76-82 | green iff success, red iff error, the saving blue for every other type |
| SettingsWidget.ShowSpec | www/static/js/widgets/settings_4x7_mqtt.js:73-92 | nothing before the element exists; otherwise coloured, filled and shown, and one more hide pending unless saving |
| SettingsWidget.HideSpec | www/static/js/widgets/settings_4x7_mqtt.js:88-90 | a hide firing hides the element whatever it shows and keeps its text and colour |
| SettingsWidget.StaleHideHidesNewerSaving | www/static/js/widgets/settings_4x7_mqtt.js:87-91 | a success's hide still pending takes away a newer saving indicator |
| SettingsWidget.SaveIndicator.constructor | www/static/js/widgets/settings_4x7_mqtt.js:11 | no indicator element at first |
| SettingsWidget.SaveIndicator.Create | www/static/js/widgets/settings_4x7_mqtt.js:50-68 | a hidden element in the saving colour |
| SettingsWidget.SaveIndicator.Show | www/static/js/widgets/settings_4x7_mqtt.js:73-92 | the indicator becomes ShowSpec of its old state |
| SettingsWidget.SaveIndicator.FireHide | www/static/js/widgets/settings_4x7_mqtt.js:88-90 | the indicator becomes HideSpec of its old state |
| SettingsWidget.SaveOutcomeOf | www/static/js/widgets/settings_4x7_mqtt.js:163-179 | connection error iff no reply or a null body; saved iff success is truthy, with a notice iff restart_required is truthy |
| SettingsWidget.OutcomeMessage | www/static/js/widgets/settings_4x7_mqtt.js:165-177 | the success type exactly for a save; every outcome ends in success or error |
| SettingsWidget.AutoSaveIndicator | www/static/js/widgets/settings_4x7_mqtt.js:149-180 | every auto-save shows its outcome and leaves exactly one more hide pending; green iff saved |
| SettingsWidget.SettingsForm.constructor | www/static/js/widgets/settings_4x7_mqtt.js:98-144 | the form starts with the page's values, no save posted |
| SettingsWidget.SettingsForm.AutoSave | www/static/js/widgets/settings_4x7_mqtt.js:149-180 | the collected record is posted; the indicator shows saving, then the outcome; a notice is added iff asked for |
| SettingsWidget.SettingsForm.ToggleEnabled | www/static/js/widgets/settings_4x7_mqtt.js:100-110 | the checkbox value is stored and the section, if present, follows it; then the form is saved: the record posted, the indicator shows saving then the outcome, and a restart notice is added iff the reply asks for one |
| SettingsWidget.SettingsForm.ToggleAuth | www/static/js/widgets/settings_4x7_mqtt.js:113-132 | switching off empties user and password, switching on keeps them; the section follows; then the form is saved with the same indicator and notice effects as an auto-save |
| SettingsWidget.SettingsForm.Blur | www/static/js/widgets/settings_4x7_mqtt.js:135-143 | a field losing focus changes neither fields nor sections and saves the form, with the same indicator and notice effects as an auto-save |
| SettingsWidget.AuthOffSavesNoCredentials | www/static/js/widgets/settings_4x7_mqtt.js:316-317 | with authentication off, empty credentials are posted whatever the fields hold |
| SettingsWidget.TestResultOf | www/static/js/widgets/settings_4x7_mqtt.js:246-257 | success class iff success is truthy; the thrown message or the reply's error in the text otherwise |
| SettingsWidget.FailedTestWithoutError | www/static/js/widgets/settings_4x7_mqtt.js:252 | any failure reply object without an `error` member reads "undefined" |
| SettingsWidget.TestPanel.constructor | www/static/js/widgets/settings_4x7_mqtt.js:219-220 | an idle button and an empty result |
| SettingsWidget.TestPanel.BeginTest | www/static/js/widgets/settings_4x7_mqtt.js:218-244 | nothing without both elements; otherwise disabled, relabelled, cleared, and the test payload posted |
| SettingsWidget.TestPanel.EndTest | www/static/js/widgets/settings_4x7_mqtt.js:246-267 | the result shows TestResultOf the reply; the button is re-enabled and relabelled; one more clear pending |
| SettingsWidget.TestPanel.FireClear | www/static/js/widgets/settings_4x7_mqtt.js:263-266 | a clear empties the result even if a newer test wrote it |
| SettingsWidget.ToggleSpec | www/static/js/widgets/settings_4x7_mqtt.js:273-303 | a missing icon or input changes nothing; a masked field is revealed with the timer; a revealed one is masked with no timer |
| SettingsWidget.FireSpec | www/static/js/widgets/settings_4x7_mqtt.js:292-297 | the timer masks its field again and resets the handle |
| SettingsWidget.ToggleTwiceMasksAgain | www/static/js/widgets/settings_4x7_mqtt.js:280-302 | toggling twice restores the mask and leaves no timer |
| SettingsWidget.SecondRevealCancelsFirst | www/static/js/widgets/settings_4x7_mqtt.js:10 | revealing a second field cancels the first field's hide, which then stays revealed |
| SettingsWidget.PasswordFields.constructor | www/static/js/widgets/settings_4x7_mqtt.js:10 | no timer at first |
| SettingsWidget.PasswordFields.Toggle | www/static/js/widgets/settings_4x7_mqtt.js:273-303 | throws iff the icon is missing; the state becomes ToggleSpec of the old one |
| SettingsWidget.PasswordFields.FireTimer | www/static/js/widgets/settings_4x7_mqtt.js:292-297 | the state becomes FireSpec of the old one |
| StatusWidget.IndicatorClass | www/static/js/widgets/status_3x4_mqtt.js:79 | the running class exactly when running, the stopped class otherwise |
| StatusWidget.StatusText | www/static/js/widgets/status_3x4_mqtt.js:85 | Running exactly when running, Stopped otherwise |
| StatusWidget.BadgeFor | www/static/js/widgets/status_3x4_mqtt.js:91-106 | active, inactive and error each get their own badge, by strict equality; every other value, a missing one included, reads Not Installed; the class is always one of the three |
| StatusWidget.BadgeClassAndTextAgree | www/static/js/widgets/status_3x4_mqtt.js:91-109 | a success class always says Active and an error class Error; a warning class says Inactive or Not Installed |
| StatusWidget.UpdateSpec | www/static/js/widgets/status_3x4_mqtt.js:70-125 | without the card, or on a throw, nothing changes; otherwise each element present is rewritten from the status and no missing element appears |
| StatusWidget.MissingIndicatorUpdatesTheRest | www/static/js/widgets/status_3x4_mqtt.js:76-110 | a missing indicator does not keep the badge from being updated |
| StatusWidget.StatusCard.constructor | www/static/js/widgets/status_3x4_mqtt.js:70-74 | the card starts with the page's elements |
| StatusWidget.StatusCard.Update | www/static/js/widgets/status_3x4_mqtt.js:70-125 | throws exactly for a null status with one of the first three elements present; the card becomes UpdateSpec of the old one |
| StatusWidget.WidgetHtml | www/static/js/widgets/status_3x4_mqtt.js:17-28 | the reply's text exactly when the request succeeded with an ok status, null otherwise |
| StatusWidget.Injected | www/static/js/widgets/status_3x4_mqtt.js:44-59 | an element is appended only from a fetched, non-empty text, and it is what the query found there |
| StatusWidget.IsIndexPath | www/static/js/widgets/status_3x4_mqtt.js:134 | the definition of the index page test: the path is `/` or `/index` |
| StatusWidget.CardRouteInjectsNothing | www/static/js/widgets/status_3x4_mqtt.js:19 | as written, the loader requests the JSON status route; text without markup holds no element, so no card is appended |
| StatusWidget.WidgetRouteInjectsCard | www/routes/routes_mqtt.py:78-84 | requesting the widget route instead appends whatever card the rendered page holds |
| StatusWidget.ServiceGrid.constructor | www/static/js/widgets/status_3x4_mqtt.js:35 | the grid as the page has it, no request made |
| StatusWidget.ServiceGrid.Inject | www/static/js/widgets/status_3x4_mqtt.js:33-64 | without the grid nothing is requested; otherwise one request, and the found widget appended or nothing |
| StatusWidget.ServiceGrid.Init | www/static/js/widgets/status_3x4_mqtt.js:130-137 | the grid's presence never changes; other paths change nothing; on / and /index a present grid makes one request and gets the found widget appended, and a missing grid or no widget leaves the children as they were |
| DependenciesWidget.Matches | www/static/js/widgets/dependencies_4x2_mqtt.js:33 | the definition of the find callback: the element's `name` is that very string |
| DependenciesWidget.FindIn | www/static/js/widgets/dependencies_4x2_mqtt.js:33 | not found iff no element is null or matches; a found element is in the list and matches; a throw means a null was met |
| DependenciesWidget.FindInStopsAtFirst | www/static/js/widgets/dependencies_4x2_mqtt.js:33 | find stops at the first element that is null or matches: it throws on a null and returns a match |
| DependenciesWidget.FindByName | www/static/js/widgets/dependencies_4x2_mqtt.js:33 | anything but an array throws; an array is searched |
| DependenciesWidget.Rows | www/static/js/widgets/dependencies_4x2_mqtt.js:32-37 | the definition of the rows the forEach concatenates: each tool found adds its rendered row, and a throwing lookup ends them; the Rows lemmas state its properties |
| DependenciesWidget.RowsOfNoTools | www/static/js/widgets/dependencies_4x2_mqtt.js:32-37 | an empty tool list renders nothing and looks nothing up |
| DependenciesWidget.RowsNeedAnArray | www/static/js/widgets/dependencies_4x2_mqtt.js:32-37 | with a tool to look up, a software list that is not an array makes the rows throw |
| DependenciesWidget.RowsOfClientTools | www/static/js/widgets/dependencies_4x2_mqtt.js:26-37 | the client's one tool gives its rendered row when found, nothing when not, a throw on an early null |
| DependenciesWidget.RowsThrowPersists | www/static/js/widgets/dependencies_4x2_mqtt.js:32-37 | once a lookup throws, the rows throw whatever tools follow |
| DependenciesWidget.UpdateSpec | www/static/js/widgets/dependencies_4x2_mqtt.js:21-44 | no table body: nothing happens; a throwing lookup leaves the body and reports the throw; otherwise the body becomes the rendered rows, or the placeholder when none was rendered |
| DependenciesWidget.ErrorSpec | www/static/js/widgets/dependencies_4x2_mqtt.js:46-51 | the error row exactly when there is a table body |
| DependenciesWidget.LoadSpec | www/static/js/widgets/dependencies_4x2_mqtt.js:7-19 | no table body stays none; no reply or a null reply gives the error row; a reply without success and software leaves the table; one with both is UpdateSpec of the software, or the error row if that throws |
| DependenciesWidget.NoPublisherShowsPlaceholder | www/static/js/widgets/dependencies_4x2_mqtt.js:39-41 | a list without the publisher and without nulls shows the placeholder row |
| DependenciesWidget.NonArraySoftwareShowsError | www/static/js/widgets/dependencies_4x2_mqtt.js:15-18 | a software value that is not an array shows the error row |
| DependenciesWidget.DependencyTable.constructor | www/static/js/widgets/dependencies_4x2_mqtt.js:22 | the table body as the page has it |
| DependenciesWidget.DependencyTable.RenderRows | www/static/js/widgets/dependencies_4x2_mqtt.js:32-37 | the forEach loop computes the rows, or the throw of a lookup |
| DependenciesWidget.DependencyTable.Update | www/static/js/widgets/dependencies_4x2_mqtt.js:21-44 | the body and the throw are those of UpdateSpec |
| DependenciesWidget.DependencyTable.ShowError | www/static/js/widgets/dependencies_4x2_mqtt.js:46-51 | the body becomes ErrorSpec of the old one |
| DependenciesWidget.DependencyTable.Load | www/static/js/widgets/dependencies_4x2_mqtt.js:7-19 | the body becomes LoadSpec of the old one |
| Pipeline.ReplyToBrowser | www/static/js/widgets/settings_4x7_mqtt.js:163 | a JSON reply is parsed whatever its status; an uncaught exception's page makes response.json() throw |
| Pipeline.SaveBodyNormalises | www/routes/widgets/settings_mqtt.py:97-101 | every save body the form posts passes the save handler's normalisation unchanged |
| Pipeline.AsWrittenAutoSaveFails | www/static/js/widgets/settings_4x7_mqtt.js:163-175 | with the save handler as written, every auto-save shows the save error |
| Pipeline.IntendedAutoSaveOutcome | www/static/js/widgets/settings_4x7_mqtt.js:163-175 | with the intended handler, an auto-save is saved with a restart notice iff the library exits 0, and a failed save otherwise |
| Pipeline.RelayedAutoSaveOutcome | www/static/js/widgets/settings_4x7_mqtt.js:163-179 | with the relaying save route, saved iff the library printed JSON with a truthy success; a connection error iff it printed null |
| Pipeline.TestWithoutPortFails | www/static/js/widgets/settings_4x7_mqtt.js:233 | a port field without a number is sent as null, and even the intended test handler answers 500, shown as a failed connection |
| Pipeline.KeptToolIsNotThePublisher | www/static/js/widgets/dependencies_4x2_mqtt.js:27 | no tool the server keeps matches the name the client looks for |
| Pipeline.DependenciesTableNeverListsATool | www/static/js/widgets/dependencies_4x2_mqtt.js:26-41 | the table shows the placeholder whenever the server answers, and the error row otherwise |
| Pipeline.WidgetStatusJson | www/routes/routes_mqtt.py:87-90 | the widget status as an object carries its status and running flag |
| Pipeline.CardFollowsEnabledSetting | www/static/js/widgets/status_3x4_mqtt.js:79-106 | updated with the widget route's status, the card reads Running and Active exactly when MQTT is enabled |
| Pipeline.CardOnStatusFallbacks | www/static/js/widgets/status_3x4_mqtt.js:94-106 | the status route's fallbacks read Not Installed for a failed call and Error for an exception |
| Pipeline.CardFromStatusRouteReadsStopped | www/static/js/widgets/status_3x4_mqtt.js:85 | updated with the status route of the main blueprint, the card always reads Stopped, even beside an Active badge |

## Left out

- Floating-point JSON numbers: `Json` holds integers only.
- Numbers.ParseInt: parseInt's precision loss above 2^53 is not modelled; digits are read exactly.
- Numbers.PyIntOfString: int() on non-ASCII decimal digits (which Python converts to ASCII first) is not modelled.
- Numbers.PyIntOfDecimal: the limit of 4300 digits that Python 3.11 and later put on int() of a str is not modelled; longer texts raise ValueError there.
- PyRuntime.PyInt: the ValueError message quotes the text in single quotes as it is; CPython writes its repr (quote choice and escapes) and cuts it at 200 characters.
- SettingsWidget.JsString: numbers of 10^21 and above, which JavaScript prints in exponent notation, are printed in full.
- Duplicate keys in a JSON text are kept as the text has them; jsonify's key sorting is not modelled, as no reader here depends on order.
- Engine-specific error texts: a failed request or unparsable body keeps the engine's message as a parameter, and the null-reply message is V8's wording.
- Missing form inputs: `collectMqttConfig` and the test payload read inputs without a null check; the model assumes the six inputs exist.
- Inherited properties of the `colors` object (a type such as `toString`): the model treats every other type as unknown.
- Time: the status and dependencies timestamps and the card's formatted clock are parameters.
- Flask plumbing: request routing, which of two blueprints registering the same path wins, and template rendering (a page is the settings it renders).
- HTML parsing: the status card's query for `#mqtt-service-widget` in the fetched text is a function parameter; text without `<` is taken to hold no element. The JSON text of the status route is not serialised; that it holds no `<` is a precondition.
- `renderSoftwareRow` is a shared helper outside these files; it is a function parameter that does not throw.
- Concurrency: each reply is applied in one step, so overlapping saves or tests are not interleaved; timers are counters or a handle fired by an explicit method.
- Restart notification: its fade and removal after 8 s are not modelled; only the number of notices shown is.
- Console logging and `print` to stderr.
- `loadMqttSettingsWidget` and `injectMqttSettingsWidget`: injecting fetched HTML into the settings page is page plumbing.
- The auto-load on `#mqtt-dependencies-widget` and the `DOMContentLoaded` wiring.
- The subprocess itself: its command line, environment and timeout are not modelled; a run is its exit status, parsed output and stderr, or the exception it raised.

## Findings

| source | as written | input that shows it | evidently intended | confidence | as-written member | corrected member |
|---|---|---|---|---|---|---|
| www/routes/widgets/settings_mqtt.py:116 | the library input is built from `config`, a name the save handler never defines | any save body that normalises, e.g. the default settings dict | send the normalised `settings` dict and answer from the library's exit status | high, not executed | SettingsMqtt.SaveRejectsWellFormedBody | SettingsMqtt.ApiMqttSaveIntended |
| www/routes/widgets/settings_mqtt.py:161 | the test handler also passes the undefined `config` | the empty body `{}` | send the normalised test settings | high, not executed | SettingsMqtt.TestRejectsWellFormedBody | SettingsMqtt.ApiMqttTestIntended |
| www/routes/routes_mqtt.py:111 | the template gets `config`, but the settings were read into `settings` | any request, e.g. one where the export fails | render the loaded settings | high, not executed | RoutesMqtt.SettingsPageFailsOnDefaults | RoutesMqtt.ApiMqttSettingsWidgetIntended |
| www/static/js/widgets/status_3x4_mqtt.js:19 | the card loader requests `/api/widgets/mqtt/status`, which answers JSON, and looks for `#mqtt-service-widget` in it | any index page load: the reply is `{"success": true, "service": "mqtt", ...}`, which holds no element, so the card is never injected | request `/api/mqtt/widget` (www/routes/routes_mqtt.py:78), which renders the card | medium, not executed | StatusWidget.CardRouteInjectsNothing | StatusWidget.WidgetRouteInjectsCard |
