# Real-estate listing app: screen logic in Dafny

This project models the decision logic inside four screens of a React Native
real-estate app that shows hardcoded listings, agents, a user profile and a
map of property viewings. Rendering is left out. What is modelled is what
each screen computes and which state it keeps:

- **Properties screen** (`Properties`). Listings are narrowed by a
  case-insensitive search over title and location, and by one of four filter
  tags: `All`, `Sale`, `Rent`, `Featured`. The screen's state is the search
  text and the selected tag. The class `PropertiesScreen` holds them, and its
  methods are the search bar, the tag buttons and "Clear Filters".
- **Viewings map screen** (`Viewings`). Each viewing status gets a marker
  colour and icon, and each property type gets an icon. The map legend is
  modelled too. The "Upcoming Viewings" cards show every viewing that is not
  completed. The header counts the scheduled ones. The class
  `ViewingsMapScreen` holds the selected viewing and the visible map region,
  changed by "View on Map", by a marker press, by the locate button and by
  the map reporting a new region.
- **Profile screen** (`Profile`). A five-field form and four setting switches
  are each updated one field at a time (`updateFormData`, `updateSetting`).
  The class `ProfileScreen` holds them. Also modelled: the glyph chosen for
  each recent-activity row, and which rows draw a bottom border.
- **Agents screen** (`Agents`). An agent's avatar shows the initials computed
  by `name.split(' ').map(n => n[0]).join('')`. The agent and testimonial
  lists are keyed by `id.toString()`.

Two helper modules model the JavaScript built-ins these screens rely on:

- `Arrays` models `Array.prototype.filter` and the order-preserving sublist
  relation its result has to its input.
- `Strings` models `toLowerCase` on ASCII letters, `includes`, `split` on a
  one-character separator, indexing past the end (which gives `undefined`),
  and `toString` on non-negative integers. It also defines `Join` on
  strings. No screen calls it: it is the reference definition that `Split`
  is proved to invert. The one `join` a screen calls is `join('')` on the
  initials, modelled separately as `Agents.JoinChars`.

`Theme` holds the three colour tokens the markers use.

Main results:

- The filtered property list is exactly the matching listings, every copy
  kept, in their original order.
- A cleared screen shows everything.
- Search ignores letter case.
- A longer query narrows the list.
- Form and setting updates change one field, are idempotent and commute.
- The initials are exactly the first character of each maximal run of
  non-space characters.
- Split and join invert each other.
- Distinct ids give distinct list keys.

## Model

| member | source | states |
|---|---|---|
| `Arrays.Filter` | src/screens/PropertiesScreen.tsx:93-100 | `filter` keeps an element exactly when the predicate holds, keeps every copy of such an element, and returns no more elements than it was given |
| `Arrays.FilterIsSublist` | src/screens/PropertiesScreen.tsx:93-100 | the result of `filter` is an order-preserving sublist of its input |
| `Arrays.FilterMonotone` | src/screens/PropertiesScreen.tsx:93-100 | a weaker predicate keeps a sublist that contains what a stronger one keeps |
| `Arrays.FilterKeepsAll` | src/screens/PropertiesScreen.tsx:96 | a predicate true of every element returns the input unchanged |
| `Arrays.FilterCongruent` | src/screens/PropertiesScreen.tsx:93-100 | predicates that agree on the elements give the same result |
| `Arrays.SublistLength` | src/screens/PropertiesScreen.tsx:145 | a sublist is never longer than its source, so a count of filtered items never exceeds the total |
| `Strings.Lower` | src/screens/PropertiesScreen.tsx:94-95 | `toLowerCase` keeps the length, turns each ASCII capital into its lower-case letter, keeps every other character, and so leaves no upper-case ASCII letter |
| `Strings.LowerIdempotent` | src/screens/PropertiesScreen.tsx:94-95 | lowering twice equals lowering once |
| `Strings.LowerSlice` | src/screens/PropertiesScreen.tsx:94-95 | lowering commutes with taking a slice |
| `Strings.IncludesIffOccurs` | src/screens/PropertiesScreen.tsx:94-95 | the `includes` scan succeeds exactly when the needle occurs at some position of the haystack |
| `Strings.IncludesEmpty` | src/screens/PropertiesScreen.tsx:94-95 | every string includes the empty string |
| `Strings.IncludesTransitive` | src/screens/PropertiesScreen.tsx:94-95 | if a includes b and b includes c, then a includes c |
| `Strings.IncludesLower` | src/screens/PropertiesScreen.tsx:94-95 | an occurrence survives lowering both strings |
| `Strings.Split` | src/screens/AgentsScreen.tsx:89 | `split(sep)` returns one piece more than there are separators, and no piece contains the separator |
| `Strings.JoinSplit` | src/screens/AgentsScreen.tsx:89 | joining the pieces of a split with the same separator (the reference `Join`) gives back the string |
| `Strings.SplitJoin` | src/screens/AgentsScreen.tsx:89 | splitting a join of separator-free pieces gives back the pieces |
| `Strings.SplitAfterPiece` | src/screens/AgentsScreen.tsx:89 | a separator-free piece followed by the separator splits off as the first piece |
| `Strings.SplitSinglePiece` | src/screens/AgentsScreen.tsx:89 | a string without the separator splits into itself alone |
| `Strings.NatToString` | src/screens/AgentsScreen.tsx:188 | `toString` of a non-negative integer is a non-empty string of decimal digits |
| `Strings.ParseNatToString` | src/screens/AgentsScreen.tsx:188 | reading the decimal string back gives the number |
| `Strings.NatToStringInjective` | src/screens/AgentsScreen.tsx:188 | distinct numbers have distinct decimal strings |
| `Properties.FilteredProperties` | src/screens/PropertiesScreen.tsx:93-100 | a listing is shown exactly when its lowered title or location includes the lowered query and the tag is `All`, equals its type, or is `Featured` and it is featured; every copy of a matching listing is kept and no copy of another; what is shown is an order-preserving sublist, so its length never exceeds the number of listings |
| `Properties.EmptyQueryIgnoresSearch` | src/screens/PropertiesScreen.tsx:94-98 | with the empty query the result depends on the tag alone |
| `Properties.ClearedShowsAll` | src/screens/PropertiesScreen.tsx:207-210 | the empty query with the tag `All` shows every listing in its original order |
| `Properties.TypeFilterSound` | src/screens/PropertiesScreen.tsx:96-98 | with tag `Sale` or `Rent` every listing shown has that type |
| `Properties.FeaturedFilterSound` | src/screens/PropertiesScreen.tsx:96-98 | with tag `Featured` every listing shown is featured, provided every listing's type is `Sale` or `Rent` |
| `Properties.TagNarrowsAll` | src/screens/PropertiesScreen.tsx:96-98 | under any tag the listings shown are a sublist of those shown under `All` for the same query |
| `Properties.SearchIgnoresCase` | src/screens/PropertiesScreen.tsx:94-95 | queries that differ only in ASCII letter case show the same listings |
| `Properties.LoweredQuerySame` | src/screens/PropertiesScreen.tsx:94-95 | a query and its lower-cased form show the same listings |
| `Properties.SearchNarrows` | src/screens/PropertiesScreen.tsx:94-95 | a listing that matches a query also matches every substring of that query |
| `Properties.LongerQueryNarrows` | src/screens/PropertiesScreen.tsx:93-100 | if q is a substring of q', the listings shown for q' are a sublist of those shown for q |
| `Properties.SampleFeaturedSound` | src/screens/PropertiesScreen.tsx:22-89 | every sample listing is for sale or for rent, so on the sample data `Featured` shows only featured listings |
| `Properties.PropertiesScreen.AvailableCount` | src/screens/PropertiesScreen.tsx:144-146 | the header count never exceeds the number of listings |
| `Properties.PropertiesScreen.constructor` | src/screens/PropertiesScreen.tsx:19-20 | the screen opens with the empty query and tag `All`, showing every listing |
| `Properties.PropertiesScreen.SetSearchQuery` | src/screens/PropertiesScreen.tsx:152-155 | typing sets the query and leaves the tag, so the tag stays one of the four |
| `Properties.PropertiesScreen.SelectFilter` | src/screens/PropertiesScreen.tsx:168-179 | pressing a tag button selects that tag, keeps the query, and makes that button the only active one |
| `Properties.PropertiesScreen.ClearFilters` | src/screens/PropertiesScreen.tsx:195-213 | "Clear Filters", drawn only while no listing is shown, resets to the empty query and tag `All`, which shows every listing |
| `Viewings.MarkerColor` | src/screens/ViewingsMapScreen.tsx:106-117 | scheduled is orange, pending is yellow and completed is green, each colour for exactly that status |
| `Viewings.StatusMarksDistinct` | src/screens/ViewingsMapScreen.tsx:106-145 | different statuses get different marker colours and different badge icons |
| `Viewings.PropertyIconInjective` | src/screens/ViewingsMapScreen.tsx:119-132 | the property icon (house `home`, apartment `business`, condo `business-outline`, commercial `storefront`) tells the property type apart |
| `Viewings.LegendMatchesMarkers` | src/screens/ViewingsMapScreen.tsx:264-278 | each legend entry's label names a status and its dot has that status's marker colour, and every status has an entry |
| `Viewings.Upcoming` | src/screens/ViewingsMapScreen.tsx:289-291 | the cards show exactly the viewings that are not completed, every copy kept, as an order-preserving sublist |
| `Viewings.UpcomingOffersReschedule` | src/screens/ViewingsMapScreen.tsx:196-201 | every upcoming card's second button reads "Reschedule" |
| `Viewings.FilterScheduledCounts` | src/screens/ViewingsMapScreen.tsx:211 | filtering the scheduled viewings keeps as many as a one-by-one count of scheduled viewings |
| `Viewings.ScheduledCount` | src/screens/ViewingsMapScreen.tsx:210-212 | the header count is the number of scheduled viewings: zero exactly when none is scheduled, and at most the number of upcoming cards, which is at most the total |
| `Viewings.ViewingsMapScreen.constructor` | src/screens/ViewingsMapScreen.tsx:35-41 | the map opens on the initial region with nothing selected |
| `Viewings.ViewingsMapScreen.ViewOnMap` | src/screens/ViewingsMapScreen.tsx:187-194 | "View on Map" selects the card's viewing and centres the region on its coordinate, with both spans 0.01 |
| `Viewings.ViewingsMapScreen.PressMarker` | src/screens/ViewingsMapScreen.tsx:229 | a marker press selects its viewing and leaves the region untouched |
| `Viewings.ViewingsMapScreen.Locate` | src/screens/ViewingsMapScreen.tsx:251-258 | the locate button restores exactly the initial region and keeps the selection |
| `Viewings.ViewingsMapScreen.RegionChanged` | src/screens/ViewingsMapScreen.tsx:220 | a region reported by the map replaces the current one and keeps the selection |
| `Viewings.LocateRestoresInitialRegion` | src/screens/ViewingsMapScreen.tsx:187-258 | after "View on Map", a pan and a marker press, the locate button brings back the opening region with the pressed viewing still selected |
| `Profile.WithField` | src/screens/ProfileScreen.tsx:30-32 | `updateFormData(f, v)` gives field f the value v and leaves the other four fields as they were |
| `Profile.FormDataExtensional` | src/screens/ProfileScreen.tsx:15-21 | a form is determined by its five field values |
| `Profile.WithFieldLastWins` | src/screens/ProfileScreen.tsx:30-32 | of two writes to one field the second wins, and the same write twice equals once |
| `Profile.WithFieldCommutes` | src/screens/ProfileScreen.tsx:30-32 | writes to different fields commute |
| `Profile.WithFieldSameValue` | src/screens/ProfileScreen.tsx:30-32 | writing back a field's own value changes nothing |
| `Profile.InputsEditDistinctFields` | src/screens/ProfileScreen.tsx:88-114 | the five Inputs edit five different fields, and every field has an Input |
| `Profile.WithSetting` | src/screens/ProfileScreen.tsx:34-36 | `updateSetting(s, b)` sets switch s to b and leaves the other three as they were |
| `Profile.SettingsExtensional` | src/screens/ProfileScreen.tsx:23-28 | settings are determined by their four switch values |
| `Profile.WithSettingLastWins` | src/screens/ProfileScreen.tsx:34-36 | of two writes to one switch the second wins, so repeating a write changes nothing |
| `Profile.WithSettingCommutes` | src/screens/ProfileScreen.tsx:34-36 | writes to different switches commute |
| `Profile.SwitchesDriveDistinctSettings` | src/screens/ProfileScreen.tsx:148-198 | the four switches drive four different settings, and every setting has a switch |
| `Profile.ActivityIcon` | src/screens/ProfileScreen.tsx:213-216 | "Viewed Property" gives the eye, "Saved to Favorites" the heart, and every other action the telephone |
| `Profile.OnlyLastRowUnbordered` | src/screens/ProfileScreen.tsx:207-211 | every activity row except the last draws the bottom border |
| `Profile.ProfileScreen.constructor` | src/screens/ProfileScreen.tsx:15-28 | the screen opens with the sample user; notifications and market updates are on, email alerts and dark mode off |
| `Profile.ProfileScreen.UpdateFormData` | src/screens/ProfileScreen.tsx:30-32 | an Input edit changes that one form field and nothing else, settings included |
| `Profile.ProfileScreen.UpdateSetting` | src/screens/ProfileScreen.tsx:34-36 | a switch flip changes that one setting and nothing else, form included |
| `Agents.InitialsOfCons` | src/screens/AgentsScreen.tsx:89 | an empty piece contributes nothing to the initials, and a non-empty piece contributes its first character |
| `Agents.InitialsOfNonEmpty` | src/screens/AgentsScreen.tsx:89 | the initials are the first characters of the non-empty pieces, in order, one per such piece |
| `Agents.InitialsLength` | src/screens/AgentsScreen.tsx:89 | the number of initials is the number of non-empty pieces, hence at most the number of spaces plus one |
| `Agents.WordStartsSplit` | src/screens/AgentsScreen.tsx:89 | split/map/join yields exactly the non-space characters at the start of the name or after a space |
| `Agents.InitialsAreWordStarts` | src/screens/AgentsScreen.tsx:89 | the initials equal the independent word-start reading of the name |
| `Agents.TwoWordInitials` | src/screens/AgentsScreen.tsx:89 | two space-free words joined by one space give their two first letters |
| `Agents.SampleAgentsHaveTwoInitials` | src/screens/AgentsScreen.tsx:17-62 | each of the four sample agents gets exactly two initials |
| `Agents.FeaturedAvatarMatches` | src/screens/AgentsScreen.tsx:155-158 | the hand-written avatar text `DT` equals the computed initials of "David Thompson" |
| `Agents.KeysDistinct` | src/screens/AgentsScreen.tsx:185-204 | items with distinct ids get distinct `id.toString()` keys |
| `Agents.SampleKeysDistinct` | src/screens/AgentsScreen.tsx:17-83 | the sample agents' keys are pairwise distinct, and so are the sample testimonials' |

## Left out

- Rendering is not modelled: JSX, `StyleSheet` objects, layout arithmetic (`Dimensions`, `width * 0.8`), the `Button`, `Card` and `Input` components, navigation (`App.tsx`) and the static home screen. They only compose what is drawn.
- The design-token tables are not modelled beyond the three marker colours, kept as constants in `Theme`.
- `toLowerCase` is modelled on ASCII letters only. Other characters are left unchanged, so full Unicode case mapping is not captured.
- Strings are sequences of Dafny characters, which are Unicode scalar values. JavaScript strings are UTF-16 code units. So `n[0]` on a name starting with a surrogate pair is not modelled.
- Latitudes, longitudes and region spans are JavaScript floats. They are modelled as reals that are only copied and compared, never computed with.
- The map component is not modelled: gestures, user location, callouts and the moment it reports `onRegionChangeComplete`. The report itself is `RegionChanged` with an arbitrary region.
- React's asynchronous state batching is not modelled. Every setter is an immediate state change, and the two setters of "View on Map" form one step.
- The marker-colour and icon functions in the source have `default` branches. The model does not have them: statuses and property types are enumerations, and the TypeScript union types make those branches unreachable.
- Form fields and setting names are enumerations. `updateFormData` and `updateSetting` accept any string, and a name outside the record would add a new key. Every call site on the screen passes one of the existing names, so that case is not modelled.
- The activity glyphs are an enumeration (eye, heart, telephone) instead of emoji strings.
- The preference checkboxes, "Save Changes", the quick-action buttons and the hardcoded `JD` profile avatar have no behaviour, and are not modelled.
- Properties.FeaturedFilterSound: requires every listing's type to be `Sale` or `Rent`. The source compares the tag with `property.type` as strings, so a listing whose type were literally `Featured` would also pass the `Featured` tag.
- The concrete output of the filter on the six sample listings is not stated. Only their types are (`SampleFeaturedSound`). The verifier unrolls these functions without limit on literal data, so such statements exceed its resource limit.
