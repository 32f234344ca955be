# lunch-connect front end: a Dafny model of its component state machines

lunch-connect is a React single-page front end for a lunch-meetup product.
Users browse restaurants, put together dining groups, tag their food and career
interests and chat with a group. Most of the code is layout and REST calls. This
project models the logic that sits inside four components, and proves what that
logic promises:

- **Group creation** (`CreateGroup` and `RestaurantSection` in
  `src/components/RestaurantSection.jsx`). A guest list bounded by a capacity
  field, with search, add and remove. A friends-only filter. A VIP badge
  derived from the capacity. A required-field check in front of a confirmation
  view. The modal's open flag and selected restaurant.
- **Tag editor** (`TagSection` in `src/components/MapSection.jsx`). A tag list
  with trim-and-append and remove-by-position. An edit mode driven by the
  "Agrega un tag" button, Enter, Escape and blur.
- **Chat window** (`src/components/ChatInterface.jsx`). A local, append-only
  message list that starts with two messages. Blank drafts are not sent. A
  minimize/restore toggle.
- **Featured events** (`src/components/FeaturedEvents.jsx`). The projection of
  the backend's restaurant records into event cards.

Each of the four stateful components (`CreateGroup`, `RestaurantSection`,
`TagSection`, `ChatInterface`) is modelled twice:

- As a `class` whose fields are the component's `useState` variables. Each
  event handler is a method with a field-level `modifies` clause. Its
  `ensures` give the new fields.
- As a pure state value with an event type and a step function
  (`Step`, or `StepPagina` for the restaurant page) with its `Run`. Each
  handler method's `ensures` ties the object's new `State()` to the step
  function applied to the old state and the handler's event. The lemmas
  about `Run` state what holds after *any* sequence of user actions.

One method is not an event of its own. `CreateGroup.AgregarInvitado`
(`agregarInvitado`) is only called from a click on a search result. Its
`ensures` tie the new state to `Agregar`, the function that `Step` applies
for that click.

In the step function, an event whose element the component does not render
in the current view changes nothing. In the class, the same condition is the
method's `requires`. Examples:

- The form inputs, the search results, the remove buttons and "Continuar"
  exist only in the form view. "Editar" exists only in the confirmation view.
- The tag input, with its keys and its blur, exists only in edit mode. The
  "Agrega un tag" button exists only outside it.
- The chat input, the send button and the minimize controls exist only in
  the expanded window. The bubble that restores it exists only while
  minimized.
- The selects offer only their listed options. The cards show only the
  page's restaurants. The modal's close controls exist only while the modal
  is rendered.

Files and modules:

| file | module | contents |
|---|---|---|
| `Optional.dfy` | `Optional` | `Option`, for `null`/`undefined` |
| `Text.dfy` | `Text` | `String.prototype.trim` (the ECMAScript whitespace set), `includes`, lower-casing |
| `Seqs.dfy` | `Seqs` | `Array.prototype.filter` and the subsequence relation it satisfies |
| `RestaurantSection.dfy` | `Restaurants` | the guest list, form events, and classes `CreateGroup` and `RestaurantSection` |
| `MapSection.dfy` | `MapTags` | the tag editor and class `TagSection` |
| `ChatInterface.dfy` | `Chat` | the chat window and class `ChatInterface` |
| `FeaturedEvents.dfy` | `FeaturedEvents` | the record-to-card projection |

Modelling decisions:

- **Capacity.** The capacity field is modelled after `parseInt`, as
  `Vacia | Num(n) | NoNumerica`. `Vacia` is the empty, falsy field. `NoNumerica`
  is text that parses to NaN. It is truthy, but every comparison with it is
  false.
- **VIP status.** The host's VIP status is the component's constant `true`
  (`UsuarioEsVIP`). `MostrarOpcionVIP` also takes it as a parameter.
- **Duplicate declaration.** `RestaurantSection.jsx` declares
  `const usuariosFiltrados` twice (lines 34 and 42). As written, that module
  is a redeclaration error. The model uses the first declaration
  (`UsuariosFiltrados`). The second one is `UsuariosFiltradosBusqueda`.
  `FiltrosCoincidenSinSoloAmigos` proves the two agree when the friends-only
  box is unticked.
- **Chat scope.** `ChatInterface.jsx` is a local-only window. It opens no
  broker connection, so there is no connection state, subscription, echo or
  reconnect to model. The message id `Date.now()` is the `now` parameter of
  `HandleSendMessage`. No uniqueness is claimed for it.
- **Search list.** The search runs over the component's fixed user list
  `ListaAmigos`. `CreateGroup` holds it as the constant `listaAmigos`.
  `Step` takes the list as a parameter, so the lemmas hold for any list.
- **Lowering the capacity.** The capacity bound is kept by every event except
  an edit of the capacity itself. The capacity input accepts any value, even
  one below the group already formed (`RestaurantSection.jsx:349`).
  `confirmarReserva` (lines 60-66) checks only that the capacity, day and
  hour are filled in, so such a group is still confirmed.
  `ConfirmaFueraDeCapacidad` states this behaviour of the code. One instance
  is three invitees, capacity cleared, then set to 2, then "Continuar": the
  confirmation view shows 4 people for a capacity of 2.
- **Restaurant filters.** The category and location selects only record
  their values. The code does not apply them to the list of restaurants, and
  the model does not either.
- **Unmounting.** Closing the modal unmounts `CreateGroup`, and reopening it
  mounts a fresh one. Each mount is a new object built by
  `CreateGroup.constructor`.

## Model

| member | source | states |
|---|---|---|
| `Text.Trim` | src/components/MapSection.jsx:37-38 | `trim()`: the result is no longer than the input and has no whitespace at either end |
| `Text.TrimPads` | src/components/MapSection.jsx:37-38 | `trim()` removes only whitespace, and only at the ends: the input is blank text, then the result, then blank text |
| `Text.TrimEmptyIffBlank` | src/components/ChatInterface.jsx:22 | `s.trim()` is empty exactly when every character of `s` is whitespace, so `""` and `"   "` are both rejected |
| `Text.TrimIdempotent` | src/components/MapSection.jsx:37-38 | trimming an already trimmed text changes nothing, so trimming twice is trimming once |
| `Text.Includes` | src/components/RestaurantSection.jsx:35 | `includes`: recursive search for `sub` as a prefix of some suffix of `s` (its meaning is pinned by `IncludesIffOccurs`) |
| `Text.IncludesIffOccurs` | src/components/RestaurantSection.jsx:35 | `includes(sub)` holds exactly when `sub` occurs as a contiguous run starting at some position of `s` |
| `Text.ToLower` | src/components/RestaurantSection.jsx:35 | lower-casing keeps the length and lower-cases each ASCII letter in place |
| `Seqs.Filter` | src/components/RestaurantSection.jsx:54-56 | `filter` keeps only elements that pass, in their original order (a subsequence), and keeps the whole list when all pass |
| `Seqs.FilterCounts` | src/components/RestaurantSection.jsx:55 | each passing element keeps its number of occurrences; failing values occur zero times |
| `Seqs.FilterMembers` | src/components/RestaurantSection.jsx:55 | a value is in the filtered list iff it is in the list and passes |
| `Seqs.FilterAgree` | src/components/RestaurantSection.jsx:42-45 | filters with predicates that agree everywhere give the same list |
| `Restaurants.UsuariosFiltrados` | src/components/RestaurantSection.jsx:34-40 | the results are a subsequence of the user list: exactly the users whose lower-cased name contains the lower-cased search, who are not invited, and who are friends when `soloAmigos` is set |
| `Restaurants.UsuariosFiltradosBusqueda` | src/components/RestaurantSection.jsx:42-45 | the second declaration: a subsequence of the user list holding exactly the users whose lower-cased name contains the lower-cased search and who are not invited |
| `Restaurants.FiltrosCoincidenSinSoloAmigos` | src/components/RestaurantSection.jsx:42-45 | the second `usuariosFiltrados` declaration equals the first with `soloAmigos = false` |
| `Restaurants.BusquedaVaciaMuestraTodos` | src/components/RestaurantSection.jsx:35 | an empty search matches every name, so every user who is not invited (and is a friend, if required) is in `usuariosFiltrados`; that list is not displayed for an empty search (line 279) |
| `Restaurants.SinId` | src/components/RestaurantSection.jsx:54-56 | `eliminarInvitado`'s list drops every invitee with the id, keeps the rest in order, and equals the input when the id is absent |
| `Restaurants.SinIdKeepsIdsDistinct` | src/components/RestaurantSection.jsx:54-56 | removing invitees never introduces a repeated id |
| `Restaurants.SubsequenceKeepsIdsDistinct` | src/components/RestaurantSection.jsx:55 | any sub-list of a list without repeated ids has no repeated ids either |
| `Restaurants.TotalPersonas` | src/components/RestaurantSection.jsx:58 | `totalPersonas`: the invitees plus the host |
| `Restaurants.PuedeAgregar` | src/components/RestaurantSection.jsx:48 | `agregarInvitado`'s guard: no capacity set, or fewer invitees than the capacity minus one |
| `Restaurants.AgregarDeshabilitado` | src/components/RestaurantSection.jsx:287 | the add buttons' disabled rule: a capacity is set and the group, host included, has reached it |
| `Restaurants.DeshabilitadoSiiRechazado` | src/components/RestaurantSection.jsx:287 | for an empty or numeric capacity, an add button is disabled exactly when `agregarInvitado`'s guard (line 48) refuses; for a non-numeric capacity the buttons stay enabled and every add is refused |
| `Restaurants.MostrarOpcionVIP` | src/components/RestaurantSection.jsx:16-19 | `mostrarOpcionVIP`: a VIP host and a parsed capacity above five |
| `Restaurants.OpcionVIPDelAnfitrion` | src/components/RestaurantSection.jsx:16-19 | with the component's host, whose VIP flag is the constant `true`, the badge shows exactly for a numeric capacity above five |
| `Restaurants.ReservaCompleta` | src/components/RestaurantSection.jsx:61 | `confirmarReserva`'s check: capacity, day and hour all filled in |
| `Restaurants.Confirmar` | src/components/RestaurantSection.jsx:60-66 | only the view flag may change, and it ends up set exactly when it was already set or the reservation is complete |
| `Restaurants.OpcionVIPSiiCabenCinco` | src/components/RestaurantSection.jsx:16-19 | the VIP badge appears exactly for a VIP host whose numeric capacity still lets a fifth invitee be added |
| `Restaurants.Agregar` | src/components/RestaurantSection.jsx:47-52 | when the guard allows, the user is appended at the end and the search cleared, and the group then fits the capacity; otherwise the form is unchanged |
| `Restaurants.AgregarResultadoKeepsIdsDistinct` | src/components/RestaurantSection.jsx:36 | adding a search result never creates a second entry with the same id |
| `Restaurants.StepConsistente` | src/components/RestaurantSection.jsx:60-66 | every event keeps the invariant: no repeated invitee id, and the confirmation view only with capacity, day and hour filled in |
| `Restaurants.RunConsistente` | src/components/RestaurantSection.jsx:34-70 | after any sequence of user actions, the invariant still holds, so no one is invited twice |
| `Restaurants.FormInicialConsistente` | src/components/RestaurantSection.jsx:7-13 | the freshly mounted form satisfies the invariant |
| `Restaurants.StepDentroDeCapacidad` | src/components/RestaurantSection.jsx:47-58 | every event other than editing the capacity keeps the capacity and keeps host plus invitees within it |
| `Restaurants.RunDentroDeCapacidad` | src/components/RestaurantSection.jsx:47-58 | a group inside the capacity stays inside it while no event edits the capacity |
| `Restaurants.ConfirmaFueraDeCapacidad` | src/components/RestaurantSection.jsx:60-66 | lowering the capacity below a formed group and then continuing reaches the confirmation view with the group over capacity |
| `Restaurants.PaginaCoherente` | src/components/RestaurantSection.jsx:409-412 | the page's invariant: open flag and selection set together, the selection is one of the page's restaurants, each filter holds one of its options |
| `Restaurants.PaginaInicialCoherente` | src/components/RestaurantSection.jsx:409-412 | the page loads coherent and with no modal |
| `Restaurants.RunPaginaCoherente` | src/components/RestaurantSection.jsx:445-453 | after any sequence of page events the page is coherent, so the modal is rendered exactly when its open flag is set |
| `Restaurants.FiltrosNoTocanModal` | src/components/RestaurantSection.jsx:471-506 | the two selects never open, close or change the modal |
| `Restaurants.AbrirCerrar` | src/components/RestaurantSection.jsx:445-453 | opening a card's modal and closing it again leaves the filters as they were, with no modal |
| `Restaurants.CreateGroup.constructor` | src/components/RestaurantSection.jsx:7-13 | mounting gives an empty guest list, empty fields and the form view |
| `Restaurants.CreateGroup.SetCapacidad` | src/components/RestaurantSection.jsx:349 | the capacity input sets the capacity and nothing else |
| `Restaurants.CreateGroup.SetDia` | src/components/RestaurantSection.jsx:368 | the date input sets the day and nothing else |
| `Restaurants.CreateGroup.SetHora` | src/components/RestaurantSection.jsx:383 | the time input sets the hour and nothing else |
| `Restaurants.CreateGroup.SetBusqueda` | src/components/RestaurantSection.jsx:266 | the search input sets the search text and nothing else |
| `Restaurants.CreateGroup.SetSoloAmigos` | src/components/RestaurantSection.jsx:219 | the checkbox sets the friends-only flag and nothing else |
| `Restaurants.CreateGroup.AgregarInvitado` | src/components/RestaurantSection.jsx:47-52 | append the user and clear the search when the capacity is empty or the invitees are fewer than capacity minus one; otherwise nothing changes |
| `Restaurants.CreateGroup.ElegirResultado` | src/components/RestaurantSection.jsx:279-287 | a click on a search result adds that user, keeps the invariant (no repeated id) and keeps the group within the capacity |
| `Restaurants.CreateGroup.EliminarInvitado` | src/components/RestaurantSection.jsx:54-56 | the guest list becomes `SinId` of the old one; the invariant is kept |
| `Restaurants.CreateGroup.ConfirmarReserva` | src/components/RestaurantSection.jsx:60-66 | from the form view: switch to the confirmation view only when capacity, day and hour are all non-empty; otherwise nothing changes |
| `Restaurants.CreateGroup.EditarReserva` | src/components/RestaurantSection.jsx:68-70 | from the confirmation view: back to the form view, nothing else changes |
| `Restaurants.RestaurantSection.constructor` | src/components/RestaurantSection.jsx:409-412 | empty filters, modal closed, nothing selected: the coherent initial page |
| `Restaurants.RestaurantSection.SetCategoria` | src/components/RestaurantSection.jsx:471-479 | picking one of the category options sets the category only |
| `Restaurants.RestaurantSection.SetUbicacion` | src/components/RestaurantSection.jsx:498-506 | picking one of the location options sets the location only |
| `Restaurants.RestaurantSection.AbrirModal` | src/components/RestaurantSection.jsx:445-448 | a card's button selects that restaurant and opens the modal, which is then rendered |
| `Restaurants.RestaurantSection.CerrarModal` | src/components/RestaurantSection.jsx:450-453 | the rendered modal's close clears the open flag and the selection, so the modal (rendered only when both are set, line 566) is gone |
| `MapTags.FiltrarIndice` | src/components/MapSection.jsx:56 | the index filter removes exactly one position when it is in range and keeps the rest in order |
| `MapTags.SinIndice` | src/components/MapSection.jsx:55-57 | `removeTag(i)`'s list is the old list without position `i`; an out-of-range `i` leaves it unchanged |
| `MapTags.AddTag` | src/components/MapSection.jsx:36-42 | non-blank input appends exactly its trimmed text and clears the input; blank input leaves tags and input unchanged; edit mode ends on both paths; clean lists stay clean |
| `MapTags.KeyDownStep` | src/components/MapSection.jsx:45-52 | Enter is `handleAddTag`; Escape leaves edit mode and clears the input without touching the tags; other keys change nothing |
| `MapTags.TagsInicialesLimpios` | src/components/MapSection.jsx:120-121 | the page's initial tag lists are non-empty and trimmed |
| `MapTags.AppendKeepsLimpios` | src/components/MapSection.jsx:37-40 | appending a non-empty trimmed tag keeps a clean list clean |
| `MapTags.SinIndiceKeepsLimpios` | src/components/MapSection.jsx:55-57 | removing a tag keeps a clean list clean |
| `MapTags.RunKeepsTagsLimpios` | src/components/MapSection.jsx:36-57 | after any sequence of user actions, every tag is non-empty and has no leading or trailing whitespace |
| `MapTags.EditModeOnlyFromButton` | src/components/MapSection.jsx:79-80 | edit mode is entered only through the "Agrega un tag" button |
| `MapTags.EditModeEndsOnBlurEnterEscape` | src/components/MapSection.jsx:41-73 | blur, Enter and Escape in edit mode all end with edit mode off |
| `MapTags.DuplicatesAccepted` | src/components/MapSection.jsx:36-47 | typing a tag that is already in the list and leaving the input (blur or Enter) appends it again: duplicates are not rejected |
| `MapTags.TagSection.constructor` | src/components/MapSection.jsx:23-25 | a section starts with the given tags, outside edit mode, with an empty input |
| `MapTags.TagSection.ClickAgregaTag` | src/components/MapSection.jsx:80 | the button turns edit mode on and changes nothing else |
| `MapTags.TagSection.SetInputValue` | src/components/MapSection.jsx:71 | typing sets the input text only |
| `MapTags.TagSection.HandleAddTag` | src/components/MapSection.jsx:36-42 | in edit mode, as `AddTag` (the blur event), on the object's fields; clean tags stay clean |
| `MapTags.TagSection.HandleKeyDown` | src/components/MapSection.jsx:45-52 | in edit mode, as `KeyDownStep`, on the object's fields; clean tags stay clean |
| `MapTags.TagSection.RemoveTag` | src/components/MapSection.jsx:55-57 | the tags become the old ones without position `i`, as the remove event; clean tags stay clean |
| `Chat.InitialMessages` | src/components/ChatInterface.jsx:7-10 | the two messages the window opens with: the system welcome naming the group, then Ana's message |
| `Chat.DraftBlank` | src/components/ChatInterface.jsx:22 | the send guard `!newMessage.trim()`, which is also the send button's disabled rule: the trimmed draft is empty |
| `Chat.WelcomeNamesGroup` | src/components/ChatInterface.jsx:7-10 | the window opens with two messages; the first is a system message whose text contains the group name |
| `Chat.OwnMessage` | src/components/ChatInterface.jsx:23 | a sent message carries the untrimmed draft, sender "Tú", `isMe` true and the given id |
| `Chat.Send` | src/components/ChatInterface.jsx:20-26 | a blank draft changes nothing; otherwise exactly one own message is appended at the end and the draft is cleared |
| `Chat.BlankDraftNotSent` | src/components/ChatInterface.jsx:22 | an empty or whitespace-only draft is never sent |
| `Chat.RunAppendOnly` | src/components/ChatInterface.jsx:20-26 | after any sequence of actions, earlier messages are never removed, changed or reordered, and every later message is one's own with non-blank text |
| `Chat.ToggleKeepsContent` | src/components/ChatInterface.jsx:29-72 | minimize and restore change only `isMinimized`, never the messages or the draft |
| `Chat.ChatInterface.constructor` | src/components/ChatInterface.jsx:5-11 | not minimized, the two initial messages, an empty draft |
| `Chat.ChatInterface.SetNewMessage` | src/components/ChatInterface.jsx:110 | in the expanded window, typing sets the draft only; the initial messages stay at the head |
| `Chat.ChatInterface.HandleSendMessage` | src/components/ChatInterface.jsx:20-26 | the list changes exactly when the send button (line 114) is enabled, that is when the draft is not blank; the initial messages stay at the head |
| `Chat.ChatInterface.Minimize` | src/components/ChatInterface.jsx:51-67 | from the expanded window, sets `isMinimized` only; the initial messages stay at the head |
| `Chat.ChatInterface.Restore` | src/components/ChatInterface.jsx:29-33 | from the bubble, clears `isMinimized` only; the initial messages stay at the head |
| `FeaturedEvents.MaxUsers` | src/components/FeaturedEvents.jsx:35 | `capacidad_maxima` when truthy, otherwise 10 (missing or 0 both give 10); never 0 |
| `FeaturedEvents.ToEvent` | src/components/FeaturedEvents.jsx:26-36 | one card from one record |
| `FeaturedEvents.ToEvents` | src/components/FeaturedEvents.jsx:25-37 | one card per record, in order; id, title, address and image copied from `id_restaurante`, `nombre`, `direccion`, `url_imagen`; `currentUsers` 0; `careers` `["Disponible para todos"]` |
| `FeaturedEvents.ToEventsAppend` | src/components/FeaturedEvents.jsx:25 | the projection is a `map`: the cards of a concatenation are the concatenation of the cards |

## Left out

- Network I/O: every `fetch` call is left out. This covers the restaurant
  download around the projection (`FeaturedEvents.jsx:13-48`), the Nominatim
  geocoding (`MapSection.jsx:123-140`), and `authService.js` and `Perfil.jsx`.
  Loading flags and `setEvents` are left out with them.
- Local storage: the token storage in `localStorage` is a browser API.
- Map: the Leaflet map, marker and `parseFloat` coordinates involve floating
  point and a foreign library. The search box that feeds them goes too.
- DOM effects: scrolling into view, focusing the tag input, `scrollBy` on the
  card slider, `alert` and `console.log`. As a result, `finalizarReserva` is
  modelled only through its effect on the page, which is `CerrarModal`.
- Locale text: `toLocaleDateString` is not modelled.
- Text.ToLower: lower-cases only ASCII letters, whereas JavaScript's
  `toLowerCase` also maps letters such as "Á". Names with accented capitals
  may therefore match differently.
- Parsing: `parseInt` text parsing is not modelled. The capacity is taken as
  already parsed into `Vacia`, `Num(n)` or `NoNumerica`.
- Message ids: the timestamp ids from `Date.now()` are not assumed unique.
- Restaurant rating: the restaurants' floating-point `rating` is not modelled.
- Backend records: `FeaturedEvents.RestauranteApi` types the backend's record
  fields. JSON values of other types are not modelled. Examples are a missing
  `id_restaurante`, or a string or boolean `capacidad_maxima`. For capacity,
  only a missing or null value and the number 0 are covered as falsy.
- Stale state: React batching and stale closures are not modelled. Handlers
  see the state left by the previous event. This leaves out what happens if a
  browser fires blur while Enter or Escape unmounts the tag input, so that a
  second `handleAddTag` runs with the same render's values. After Enter, that
  call recomputes the same list and has no visible effect. After Escape, it
  would append the trimmed text that Escape is meant to discard. The model's
  Escape never touches the tags.
- Closing: the chat window's close button is left out. It only calls the
  parent's `onClose`.
- Pages left out as presentational: banners, footer, navbar, testimonials, the
  event modal, the results section and the pages. They hold constant data or
  a single toggle. The defects in `Perfil.jsx` (hooks at file level) and
  `Explore.jsx` (undefined `val`) sit in those surfaces.
