# Nogalera monitoring client — a verified model of its screen logic

This project models, in Dafny, the logic of the mobile client for the Nogalera
agricultural monitoring platform: the sensor screen that reconciles a fixed
catalog of six sensor cards with whatever the sensor endpoint returned, the
role-gated navigation shell, the provider that persists the user's role in a
key-value store, the login screen with its modal, and the incident-report
screen with its form and list.

One module per source file:

- `Sensores` (`sensores.dfy`, from `screens/SensoresScreen.js`). The
  reconciliation is a set of pure functions over the fetched list.
  `SensoresCompletos` maps the six-card catalog `FixedSensores`. When
  `sensores[0].sensors` exists, a switch on the slot's `tipo` reads that slot's
  sub-record (`MongoFound`). Otherwise the first legacy element whose `tipo`
  matches up to case overrides the slot (`Find`, `Merge`). `GetEstadoColor`
  maps a status label to a colour. The screen's `sensores`/`loading` state is
  the class `SensoresScreen`.
- `AppNavigator` (`app_navigator.dfy`, from `navigation/AppNavigator.js`): the
  `role ?` switch between the login stack and the drawer (`Shown`), the drawer's
  screen set (`DrawerScreens`), the icon choice (`DrawerIcon`), and the class
  `App` whose `role` `HandleLogin`/`HandleLogout` set.
- `Auth` (`auth_context.dfy`, from `navigation/AuthContext.js`): the class
  `AuthProvider` with `role`, `loading` and the key-value store as a
  `map<string, string>` field. `LoadRole`, `Login` and `Logout` each take a
  flag saying whether the store call fails. The provider is not wired into the
  navigator in the source, so it is modelled on its own.
- `Login` (`login_screen.dfy`, from `screens/LoginScreen.js`): the class
  `LoginScreen`. The asynchronous `handleLogin` is split in two.
  `HandleLogin` validates the fields, sets `loading` and returns the request.
  `CompleteLogin` takes the response and shows the modal. The modal's stored
  accept action is a value `OnLogin(role, userId)`; `RunAction` hands it to the
  navigator's `HandleLogin`.
- `Reports` (`reports_screen.dfy`, from `screens/ReportsScreen.js`): the create
  payload (`Payload`), the badges (`TypeBadgeOf`, `StatusBadgeOf`), the
  position a list entry shows (`ShownPosition`), and the class `ReportsScreen`
  with the list, the form fields and the status modal.
- `Wrappers` (`wrappers.dfy`): `Option` for `null`/`undefined`, and `Outcome`
  for the result of a network call (success with data, or failure).

Every network call is a parameter of the method that models its handler: an
`Outcome`, a `LoginResponse`, or a flag saying whether the server accepted the
request. Each asynchronous fetch is split into a `Begin…` method and a
`Finish…` method, so that `loading` is visible while the request is pending.
A screen starts a fetch as soon as it mounts, so a freshly mounted sensor
screen is its constructor followed by `FetchSensores`, and a freshly mounted
reports screen is its constructor followed by `FetchReports`.

Three behaviours of the code are worth stating up front:

- Air quality passes `riskLevel` through only when it is present and
  non-empty; otherwise the label is `Desconocido`, even when a value is shown.
- `getEstadoColor` switches on any string: Bajo, Moderado, Alto and Crítico
  have their own colours, and every other label gets `#CCC`.
- Besides the MongoDB envelope, the reconciliation has a path for list-shaped
  records: the first element whose `tipo` matches a slot's up to case
  overrides that slot.

## Model

| member | source | states |
|---|---|---|
| `Sensores.Lower` | screens/SensoresScreen.js:143 | lower-casing keeps the length and lower-cases each character in place |
| `Sensores.Find` | screens/SensoresScreen.js:142-144 | `find` returns a list element with a non-empty, case-insensitively matching `tipo`, and returns nothing only when no element matches |
| `Sensores.FindReturnsFirst` | screens/SensoresScreen.js:142-144 | the element `find` returns is the first match in list order |
| `Sensores.Band` | screens/SensoresScreen.js:106-120 | the strict three-band classification: Alto iff above the high threshold, Moderado iff above the moderate one and not above the high one, Bajo iff at or below the moderate one |
| `Sensores.GetEstadoColor` | screens/SensoresScreen.js:68-76 | Bajo, Moderado, Alto and Crítico each map to their own colour, and every other label (Desconocido included) maps to `#CCC` |
| `Sensores.MongoSensor` | screens/SensoresScreen.js:91 | the envelope exists iff the list is non-empty and its first element has `sensors`, and it is that element's `sensors` |
| `Sensores.MongoFound` | screens/SensoresScreen.js:93-139 | the envelope switch finds a record exactly for the six catalog names, and that record carries the slot's own `tipo`, a value and a label |
| `Sensores.Complete` | screens/SensoresScreen.js:146-154 | a card keeps its slot's background image whatever the data |
| `Sensores.SensoresCompletos` | screens/SensoresScreen.js:87-155 | the result always has exactly six cards, each with its catalog slot's background image |
| `Sensores.CardsKeepSlotIdentity` | screens/SensoresScreen.js:91-154 | every card's `tipo` equals its catalog slot's `tipo` up to case, on both paths |
| `Sensores.EmptyListShowsDefaults` | screens/SensoresScreen.js:140-154 | an empty list yields exactly the catalog, in catalog order, with `-` and `Desconocido` everywhere |
| `Sensores.MongoKeepsCatalogTipo` | screens/SensoresScreen.js:94-136 | on the envelope path each card's `tipo` is exactly its catalog `tipo` |
| `Sensores.OnlyFirstEnvelopeCounts` | screens/SensoresScreen.js:91 | two lists whose first elements have the same envelope give the same six cards, so the rest of the list is ignored |
| `Sensores.MongoCards` | screens/SensoresScreen.js:93-139 | on the envelope path each card is its catalog card, with value and label computed from its own sub-record only; the camera card is the catalog default |
| `Sensores.MissingSubRecordShowsDefault` | screens/SensoresScreen.js:96-127 | a missing sub-record leaves its own slot exactly at the catalog default (`-`, `Desconocido`) |
| `Sensores.SlotIndependence` | screens/SensoresScreen.js:93-139 | a slot's card depends only on its own sub-record: envelopes that agree on it give the same card |
| `Sensores.AirQualityCard` | screens/SensoresScreen.js:96-100 | air quality shows `"<value> ppm"`; its label is `riskLevel` verbatim when present and non-empty, otherwise `Desconocido` though a value is shown |
| `Sensores.SoilMoistureCard` | screens/SensoresScreen.js:103-107 | soil moisture shows `"<percentage>%"` and is Alto iff above 60, Moderado iff in (30, 60], Bajo iff at most 30 |
| `Sensores.TemperatureCard` | screens/SensoresScreen.js:110-114 | temperature shows `"<value>°C"` and is Alto iff above 35, Moderado iff in (25, 35], Bajo iff at most 25 |
| `Sensores.HumidityCard` | screens/SensoresScreen.js:117-121 | humidity shows `"<value>%"` and is Alto iff above 70, Moderado iff in (40, 70], Bajo iff at most 40 |
| `Sensores.ThresholdsAreStrict` | screens/SensoresScreen.js:106-120 | a reading exactly on a threshold falls in the lower band (60 and 30, 35 and 25, 70 and 40) |
| `Sensores.MotionCard` | screens/SensoresScreen.js:124-128 | motion detected shows (`Detectado`, Alto); not detected shows (`No`, Bajo) |
| `Sensores.CameraCard` | screens/SensoresScreen.js:130-135 | on the envelope path the camera card is always the catalog default |
| `Sensores.DerivedLabelsAreColoured` | screens/SensoresScreen.js:68-127 | on the envelope path a soil, temperature, humidity or motion card is grey iff its sub-record is missing |
| `Sensores.LegacyFirstMatch` | screens/SensoresScreen.js:140-152 | without an envelope a slot takes `tipo`, `valor` and `estado` from the first case-insensitively matching element, keeping its defaults for missing keys and always its background image |
| `Sensores.LegacyNoMatch` | screens/SensoresScreen.js:140-154 | without an envelope and with no matching element a slot keeps its catalog default |
| `Sensores.SensoresScreen.constructor` | screens/SensoresScreen.js:18-19 | the screen starts with an empty list and not loading |
| `Sensores.Render` | screens/SensoresScreen.js:173-195 | the card area shows the spinner exactly while loading; otherwise the grid holds the completed cards, and the no-data message only when that list is empty |
| `Sensores.NoDataMessageUnreachable` | screens/SensoresScreen.js:173-195 | the no-data branch can never be taken: outside loading the screen shows exactly the six completed cards |
| `Sensores.SensoresScreen.CardArea` | screens/SensoresScreen.js:173-195 | the screen's card area is the spinner iff it is loading, and otherwise the six cards completed from its current list |
| `Sensores.SensoresScreen.BeginFetch` | screens/SensoresScreen.js:38-41 | a fetch makes the screen busy without touching the list |
| `Sensores.SensoresScreen.FinishFetch` | screens/SensoresScreen.js:46-61 | after the response loading is false; on success the list is replaced wholesale, on failure it is kept |
| `Sensores.SensoresScreen.FetchSensores` | screens/SensoresScreen.js:38-62 | a whole fetch ends not loading, with the response's list on success and the previous list on failure |
| `Sensores.SensoresScreen.PressRefresh` | screens/SensoresScreen.js:166 | the refresh button starts a fetch iff the screen is not already loading |
| `AppNavigator.DrawerScreens` | navigation/AppNavigator.js:53-66 | the drawer starts with Home and About for every role; Sensores, Mapa and Reportes are in it iff the role is exactly `admin`, and then follow in that order |
| `AppNavigator.Shown` | navigation/AppNavigator.js:84-92 | the login stack is shown iff the role is absent or empty, otherwise the drawer for that role |
| `AppNavigator.DrawerIcon` | navigation/AppNavigator.js:26-47 | any route outside the five known ones gets `alert-circle-outline` |
| `AppNavigator.OutlineWhenUnfocused` | navigation/AppNavigator.js:29-44 | for each known route the unfocused icon is the focused icon plus `-outline` |
| `AppNavigator.NonAdminSeesHomeAndAbout` | navigation/AppNavigator.js:60-66 | a non-empty role other than `admin` (such as `guest`) sees exactly Home and About |
| `AppNavigator.DrawerScreensHaveIcons` | navigation/AppNavigator.js:29-66 | no screen the drawer can show falls back to the alert icon |
| `AppNavigator.App.constructor` | navigation/AppNavigator.js:72 | initially the role is null and the login stack is shown |
| `AppNavigator.App.HandleLogin` | navigation/AppNavigator.js:74-76 | the role becomes the given one verbatim, and the drawer is shown iff it is truthy |
| `AppNavigator.App.HandleLogout` | navigation/AppNavigator.js:78-80 | the role becomes null, which brings back the login stack |
| `Auth.StoredRole` | navigation/AuthContext.js:16 | reading key `role` yields its value iff the key is stored, and null otherwise |
| `Auth.RestoredRole` | navigation/AuthContext.js:14-19 | a stored role is adopted iff it is present, non-empty and not the string `undefined` |
| `Auth.AuthProvider.constructor` | navigation/AuthContext.js:9-10 | a provider starts with no role and loading |
| `Auth.AuthProvider.LoadRole` | navigation/AuthContext.js:14-25 | loading ends in every case; the role is the stored one when the read succeeds and it passes the filter, otherwise unchanged; the store is untouched |
| `Auth.AuthProvider.Login` | navigation/AuthContext.js:30-37 | a successful write stores the role under `role` and adopts it; a failed write changes neither store nor role |
| `Auth.AuthProvider.Logout` | navigation/AuthContext.js:40-47 | a successful removal deletes `role` and clears the role; a failed removal changes neither |
| `Auth.LoginThenRestore` | navigation/AuthContext.js:14-37 | after storing `r`, the next load restores `r` iff `r` passes the filter |
| `Auth.LogoutThenRestore` | navigation/AuthContext.js:14-47 | after removing the key, the next load restores no role |
| `Auth.LoginSurvivesRestart` | navigation/AuthContext.js:14-37 | a role logged in on one provider is the role of a new provider over the same store once it has loaded |
| `Auth.LogoutSurvivesRestart` | navigation/AuthContext.js:14-47 | after a logout a new provider over the same store stays without a role |
| `Login.ResponseModal` | screens/LoginScreen.js:46-56 | only an ok reply yields an accept action, and that action is `onLogin(role, userId)`; a refused reply shows the server's message or `Error al iniciar sesión`; a thrown error shows its message or `Error al conectar con el servidor` |
| `Login.LoginScreen.constructor` | screens/LoginScreen.js:18-24 | empty fields, not loading, modal hidden, no stored action |
| `Login.LoginScreen.ShowModal` | screens/LoginScreen.js:62-69 | title, message and visibility are always set; the stored action is replaced only when a new one is given |
| `Login.LoginScreen.HandleLogin` | screens/LoginScreen.js:26-32 | a request is sent iff both fields are non-empty; otherwise the `Campos vacíos` modal is shown and loading is unchanged; when sent, loading is true |
| `Login.LoginScreen.CompleteLogin` | screens/LoginScreen.js:46-59 | after the response loading is false and the response's modal is shown; only a successful login stores a new accept action, and nothing is run yet |
| `Login.LoginScreen.PressLoginButton` | screens/LoginScreen.js:117-121 | while loading the button does nothing; otherwise a request is sent iff both fields are non-empty, an empty field shows the `Campos vacíos` modal with its message and makes the screen not busy, and a sent request leaves the modal as it was and the screen busy; the stored accept action never changes |
| `Login.LoginScreen.EnterWithoutAccount` | screens/LoginScreen.js:71-75 | guest entry shows `Modo invitado` with the stored action `onLogin('guest')` |
| `Login.LoginScreen.PressAccept` | screens/LoginScreen.js:157-162 | Aceptar hides the modal and runs the stored action, if any, which stays stored |
| `Login.LoginScreen.RequestClose` | screens/LoginScreen.js:150 | the back gesture hides the modal without running or changing the stored action |
| `Login.RunAction` | navigation/AppNavigator.js:88-90 | running an accept action sets the navigator's role to the action's role |
| `Login.LoginThroughAccept` | screens/LoginScreen.js:52-54 | after a successful response the app still shows the login stack; pressing Aceptar hands the reply's role to the navigator |
| `Login.StaleGuestAction` | screens/LoginScreen.js:62-75 | a guest modal closed by the back gesture leaves its action stored, so Aceptar on a later empty-fields modal enters guest mode |
| `Reports.ShownPosition` | screens/ReportsScreen.js:136 | a list entry shows the second stored coordinate, then the first: latitude before longitude for a stored `[longitude, latitude]` point |
| `Reports.Payload` | screens/ReportsScreen.js:54-63 | the payload is a `Point` whose two coordinates, shown back, read as the typed latitude then longitude, with the description in `data`, the form's type and status, and user id `123` |
| `Reports.TypeBadgeOf` | screens/ReportsScreen.js:117 | the urgent badge is drawn iff the type is `URGENTE` |
| `Reports.StatusBadgeOf` | screens/ReportsScreen.js:124-126 | pending iff `PENDIENTE`, in progress iff `EN_PROCESO`, resolved otherwise |
| `Reports.PickerTypeBadges` | screens/ReportsScreen.js:115-155 | of the picker's three types only `URGENTE` is drawn urgent; `NORMAL` and `INFORMATIVO` share the normal badge |
| `Reports.PickerStatusBadges` | screens/ReportsScreen.js:122-169 | the picker's three statuses get three different badges, and any other status is drawn as resolved |
| `Reports.ReportsScreen.constructor` | screens/ReportsScreen.js:18-28 | no reports, loading, form preset to `URGENTE`/`PENDIENTE` with empty position and description, modal closed |
| `Reports.ReportsScreen.BeginFetchReports` | screens/ReportsScreen.js:32-33 | a fetch sets loading and touches nothing else |
| `Reports.ReportsScreen.FinishFetchReports` | screens/ReportsScreen.js:34-44 | after the response loading is false; the list is replaced on success and kept on failure |
| `Reports.ReportsScreen.FetchReports` | screens/ReportsScreen.js:32-45 | a whole fetch ends not loading, with the response's list on success and the previous list on failure |
| `Reports.ReportsScreen.CreateReport` | screens/ReportsScreen.js:47-82 | nothing is sent iff a position field or the description is empty; otherwise the form's payload is sent; an accepted create clears position and description, keeps type and status and starts a refetch; a refused one leaves the form untouched |
| `Reports.ReportsScreen.UpdateReportStatus` | screens/ReportsScreen.js:84-101 | the status update is sent; on success a refetch starts and the modal closes, on failure the modal stays as it was |
| `Reports.ReportsScreen.SelectReport` | screens/ReportsScreen.js:110-113 | tapping an entry selects it and opens the modal |
| `Reports.ReportsScreen.PickStatus` | screens/ReportsScreen.js:233-237 | a picked status is sent for the selected report iff one is selected |
| `Reports.ReportsScreen.CloseModal` | screens/ReportsScreen.js:244-247 | closing hides the modal and changes nothing else |

## Left out

- HTTP requests, `response.json()`, endpoint URLs, `Alert.alert` and `console`
  are I/O. Each request is a parameter saying how it ended: an `Outcome`, a
  `LoginResponse`, or an `accepted` flag. The text of error alerts is not
  modelled.
- React rendering, layout, `StyleSheet` objects and `styles/theme.js` are
  presentation only. The refresh icon's rotation animation is UI timing only.
- `screens/MapScreen.js` (location permission and position queries),
  `screens/HomeScreen.js` (carousel and static team list) and
  `screens/AboutScreen.js` (static markup) are not part of this model.
- Sensores.Lower: lower-cases ASCII letters only, where JavaScript's
  `toLowerCase` also folds non-ASCII letters. For the match at
  screens/SensoresScreen.js:143 this makes no difference: the six catalog names
  are ASCII and contain no `k`, and the only non-ASCII character that
  JavaScript lower-cases to a single ASCII letter is U+212A KELVIN SIGN (to
  `k`). So a legacy `tipo` matches a catalog name in the model exactly when it
  does in the code.
- The background images are an enumeration standing for the catalog's six
  image addresses; the addresses themselves are not modelled.
- Sensor numbers carry their JavaScript text rendering (`Number.text`) next to
  their value. The number-to-string conversion itself is not modelled.
- Report coordinates are opaque values: `parseFloat`, `toFixed(4)` and the
  locale date formatting are not modelled.
- JavaScript truthiness corner cases are not modelled:
  - a present sub-record whose number is missing (shown as `"undefined%"`);
  - a `riskLevel` or `message` that is not a string;
  - legacy keys that are present but `undefined`.
  Sub-records and keys are either present (`Some`) or absent (`None`).
- Reports.ShownPosition: it requires at least two coordinates. Rendering an
  entry with fewer would throw, and that crash is not modelled.
- Overlapping requests are not ordered or cancelled in the code, and none is
  modelled. Each `Finish…` method applies whichever response completes.
- Auth.AuthProvider.Login: a failed store write is modelled as leaving the store
  unchanged. A partial write by the storage library is not modelled.
- The handlers of text inputs and pickers (`setEmail`, `setLatitude`,
  `setReportType`, …) are plain assignments of the classes' fields, so they
  have no methods of their own.
- `HomeScreen` receives `onLogout`; that wiring is not part of this model.
  `HandleLogout` is modelled as a method of `App`.
