# city-services-bloom: a Dafny model of the client-side rules

city-services-bloom is a React web app where customers look for local
service providers (cleaners, tutors, handymen and so on), post service
requests and message providers, and where providers apply to join. This
project models the rules the app's pages apply in the browser:

- **Browse services** (`src/pages/Services.tsx`): a case-insensitive text
  search, a category picker and a price-range picker (`low` below 30,
  `medium` 30 up to 50, `high` 50 and above), combined into one filter over
  the provider list (module `ProviderSearch`).
- **Become a provider** (`src/pages/BecomeProvider.tsx`): a five-step
  wizard. Step 1 is a landing page, steps 2-4 are form sections and step 5
  is the confirmation. The step counter and the application form are the
  fields of the class `Onboarding.BecomeProviderPage`; the field updates and
  the availability toggle are pure functions beside it (module
  `Onboarding`).
- **Service request form** (`src/components/ServiceRequestForm.tsx`): one
  flat record updated one field at a time, plus three urgency buttons
  (module `RequestForm`, class `ServiceRequestForm`).
- **Message center** (`src/components/MessageCenter.tsx`): a conversation
  list with one conversation selected by id, and a draft that is sent only
  when it is not blank after trimming (module `Messaging`, class
  `MessageCenter`).
- **Landing page** (`src/pages/Index.tsx`): the approved services, the
  first three of them as featured providers, their count as the "Active
  Services" figure, the first eight categories, and the avatar letter
  (module `Home`).
- **Admin dashboard** (`src/pages/AdminDashboard.tsx`): a user's initials,
  the first three pending applications, and the badge variants of the user
  list (module `Admin`).

The JavaScript library calls the pages rely on are modelled once, in
shared modules:

- `Seqs`: `filter`, `slice(0, n)` and the order-preserving subsequence
  relation.
- `Text`: ASCII `toLowerCase`, `includes`, `trim`, `replace` with a string
  pattern (first occurrence only) and `split`, with `Join` as the inverse
  that states what `split` returns. The page's `join('')` of single
  characters is the concatenation in `Admin.Heads`.
- `Categories`: the category picker that both forms share.

A JavaScript number is modelled as a `real` where it is a price or a
rating, and as an `int` where it is an id or a count. A date picked in the
calendar is an opaque value.

## Model

| member | source | states |
|---|---|---|
| Seqs.Filter | src/pages/Services.tsx:106-114 | `filter` returns no more elements than it is given; every element returned is from the input and satisfies the predicate; every input element that satisfies it is returned |
| Seqs.FilterExactly | src/pages/Services.tsx:106-114 | `filter` keeps the input order and keeps each satisfying element exactly as often as it occurs, dropping all others (multiset equality) |
| Seqs.FilterMonotone | src/pages/Services.tsx:106-114 | a predicate implied by another keeps at least the elements the other keeps, in order |
| Seqs.FilterAll | src/pages/Services.tsx:106-114 | a predicate every element satisfies filters out nothing |
| Seqs.FilterAppend | src/pages/BecomeProvider.tsx:126-127 | filtering a concatenation filters each part |
| Seqs.FilterSamePredicate | src/pages/Services.tsx:106-114 | two predicates that agree on every element of the list filter it alike |
| Seqs.Take | src/pages/Index.tsx:15 | `slice(0, n)` is a prefix of length min(n, length) |
| Text.LowerChar | src/pages/Services.tsx:107 | `toLowerCase` on one character: A-Z move to a-z, every other character is unchanged |
| Text.Lower | src/pages/Services.tsx:107 | `toLowerCase` keeps the length and lower-cases each character in place |
| Text.Contains | src/pages/Services.tsx:107-108 | `includes`: a contiguous occurrence; only a string no longer than the other can occur in it, and every prefix does |
| Text.ContainsEmpty | src/pages/Services.tsx:107-108 | every string includes the empty string |
| Text.ContainsTransitive | src/pages/Services.tsx:107-108 | if a includes b and b includes c, then a includes c |
| Text.LowerKeepsContains | src/pages/Services.tsx:107-108 | lower-casing both sides keeps an inclusion |
| Text.IsWhitespace | src/components/MessageCenter.tsx:92 | the characters `trim` removes, ECMAScript's WhiteSpace and LineTerminator code points; no ASCII letter or digit is one |
| Text.TrimStart | src/components/MessageCenter.tsx:92 | leading trim removes a whitespace-only prefix and leaves a suffix that does not start with whitespace |
| Text.TrimEnd | src/components/MessageCenter.tsx:92 | trailing trim removes a whitespace-only suffix and leaves a prefix that does not end with whitespace |
| Text.Trim | src/components/MessageCenter.tsx:92 | `trim` is never longer than its input, and a non-empty result neither starts nor ends with whitespace |
| Text.TrimIsInnerBlock | src/components/MessageCenter.tsx:92 | `trim` returns a contiguous block of the input with only whitespace around it and no whitespace at its ends |
| Text.TrimEmptyIff | src/components/MessageCenter.tsx:92 | `trim` returns "" exactly when every character is whitespace |
| Text.ReplaceFirst | src/pages/BecomeProvider.tsx:302 | `replace(' ', '-')` keeps the length |
| Text.ReplaceFirstSpec | src/pages/BecomeProvider.tsx:302 | with no occurrence the string is unchanged; otherwise only the first occurrence is replaced |
| Text.ReplaceFirstOnlyChangesTarget | src/pages/BecomeProvider.tsx:302 | every character of the result is the original one or the replacement |
| Text.Split | src/pages/AdminDashboard.tsx:321 | `split` always returns at least one segment |
| Text.Join | src/pages/AdminDashboard.tsx:321 | the inverse of `split(sep)`, used to state SplitJoin and JoinSplit; no page calls it: the empty list joins to "", otherwise the result has the segments' characters plus one separator between each two |
| Text.JoinSplit | src/pages/AdminDashboard.tsx:321 | the other round trip: segments without the separator, joined with it, split back into the same segments |
| Text.SplitJoin | src/pages/AdminDashboard.tsx:321 | joining the segments with the separator gives back the string, and no segment holds the separator |
| Text.SplitWithoutSeparator | src/pages/AdminDashboard.tsx:321 | a string without the separator splits into itself alone |
| Categories.LowerKeepsSpaces | src/pages/BecomeProvider.tsx:302 | lower-casing keeps every space where it was and adds none |
| Categories.CategorySlug | src/pages/BecomeProvider.tsx:302 | `category.toLowerCase().replace(' ', '-')`: as long as the name, each character the name's character lower-cased or a `-` |
| Categories.SlugSpec | src/pages/BecomeProvider.tsx:302 | a category's option value has the name's length; it is the lower-cased name when there is no space, and otherwise the lower-cased name with only its first space turned into `-`; it has no upper-case ASCII letter |
| Categories.CategoryOptions | src/components/ServiceRequestForm.tsx:89-90 | one option value per category name, in order, each the name's slug |
| ProviderSearch.BucketOf | src/pages/Services.tsx:110-113 | every price is in exactly one bucket: low below 30, medium from 30 up to 50, high from 50 |
| ProviderSearch.MatchesSearch | src/pages/Services.tsx:107-108 | `matchesSearch`: the lower-cased name or service includes the lower-cased query; a query longer than both never matches |
| ProviderSearch.MatchesCategory | src/pages/Services.tsx:109 | `matchesCategory`: holds exactly when the picker is "all" or the provider's own category |
| ProviderSearch.MatchesPrice | src/pages/Services.tsx:110-113 | `matchesPrice`: "all" accepts every price; any other value accepts a price exactly when it is the name of the price's bucket |
| ProviderSearch.FilteredProviders | src/pages/Services.tsx:106-116 | `filteredProviders`: no longer than the provider list; every listed provider is one of them and matches search, category and price; every matching provider is listed |
| ProviderSearch.FilteredProvidersSpec | src/pages/Services.tsx:106-116 | a provider is listed exactly when it matches the search, the category and the price range; the list keeps page order and multiplicity |
| ProviderSearch.EmptyQueryMatchesAll | src/pages/Services.tsx:11-13 | with the initial state (empty query, "all", "all") every provider is listed |
| ProviderSearch.EmptyQueryMatchesSearch | src/pages/Services.tsx:107-108 | the search part alone: an empty query matches every provider |
| ProviderSearch.EmptyQueryFiltersByPickers | src/pages/Services.tsx:106-116 | with an empty query, whatever the pickers say, the listing is the filter by category and price alone |
| ProviderSearch.PriceRangePartition | src/pages/Services.tsx:110-113 | a value the picker does not offer accepts no price, and exactly one of "low", "medium", "high" accepts a given price |
| ProviderSearch.NarrowingQueryNarrowsResult | src/pages/Services.tsx:107-108 | extending the query (the new one includes the old) only removes providers from the list |
| ProviderSearch.NarrowingPickersNarrowsResult | src/pages/Services.tsx:109-113 | any category or price range lists a subsequence of the "all"/"all" list |
| Onboarding.InitialApplication | src/pages/BecomeProvider.tsx:16-37 | the form starts with every text field empty, no day chosen and every box unchecked |
| Onboarding.UpdatePersonalInfo | src/pages/BecomeProvider.tsx:102-107 | the named personal field gets the value; every other personal field and both other sections are unchanged |
| Onboarding.UpdateServiceInfo | src/pages/BecomeProvider.tsx:109-114 | the named service field gets the value; the other service fields, availability and both other sections are unchanged |
| Onboarding.UpdateAvailability | src/pages/BecomeProvider.tsx:109-114 | the day list is replaced; every other field is unchanged |
| Onboarding.UpdateVerification | src/pages/BecomeProvider.tsx:116-121 | the named box gets the value; the other boxes and both other sections are unchanged |
| Onboarding.Toggled | src/pages/BecomeProvider.tsx:125-127 | the clicked day goes from chosen to not chosen or back, and no other day changes |
| Onboarding.ToggledSpec | src/pages/BecomeProvider.tsx:123-128 | clicking a chosen day removes every copy of it and keeps the other days in order and multiplicity; clicking another day appends it |
| Onboarding.ToggledKeepsOfferedDays | src/pages/BecomeProvider.tsx:359-365 | clicking the offered days (Monday to Sunday) keeps the chosen days a list of offered days with no day twice |
| Onboarding.ToggleTwiceRestores | src/pages/BecomeProvider.tsx:123-128 | clicking a day that is not chosen twice restores the list |
| Onboarding.StepAfter | src/pages/BecomeProvider.tsx:81-100 | the step after one event: from 1..5 it stays in 1..5, and from 1..4 anything but a submit stays in 1..4 |
| Onboarding.ButtonEvents | src/pages/BecomeProvider.tsx:430-442 | the events the buttons can send at a step: next at steps 1-3 (at step 1 "Get Started", lines 199-203), previous at steps 3 and 4 (disabled at step 2), submit exactly at step 4 |
| Onboarding.NavigationStaysInRange | src/pages/BecomeProvider.tsx:81-91 | "next" and "previous" alone keep the step within 1..4 |
| Onboarding.OnlySubmitConfirms | src/pages/BecomeProvider.tsx:81-100 | from steps 1..4 a single event reaches step 5 exactly when it is a submit |
| Onboarding.ButtonsKeepWizardForward | src/pages/BecomeProvider.tsx:430-442 | with the buttons the page shows at each step (the step-1 button at lines 199-203), the wizard stays in 1..5, never returns to step 1 once past it, and stays at 5 after a submit |
| Onboarding.BecomeProviderPage.constructor | src/pages/BecomeProvider.tsx:15-37 | the page starts at step 1 with the initial form |
| Onboarding.BecomeProviderPage.HandleNext | src/pages/BecomeProvider.tsx:81-85 | the step advances by one below 4 and stays put at 4 or above; the step stays within 1..5 |
| Onboarding.BecomeProviderPage.HandlePrevious | src/pages/BecomeProvider.tsx:87-91 | the step goes back by one above 1 and stays put at 1; the step stays within 1..5 |
| Onboarding.BecomeProviderPage.HandleSubmit | src/pages/BecomeProvider.tsx:93-100 | the current form is handed over and the step becomes 5 |
| Onboarding.BecomeProviderPage.SetPersonalInfo | src/pages/BecomeProvider.tsx:102-107 | the form becomes `UpdatePersonalInfo` of the old form; the step is untouched and stays within 1..5 |
| Onboarding.BecomeProviderPage.SetServiceInfo | src/pages/BecomeProvider.tsx:109-114 | the form becomes `UpdateServiceInfo` of the old form; the step is untouched and stays within 1..5 |
| Onboarding.BecomeProviderPage.SetVerification | src/pages/BecomeProvider.tsx:116-121 | the form becomes `UpdateVerification` of the old form; the step is untouched and stays within 1..5 |
| Onboarding.BecomeProviderPage.ToggleAvailability | src/pages/BecomeProvider.tsx:123-128 | the day list becomes the toggled old list, nothing else changes and the step stays within 1..5 |
| RequestForm.InitialRequest | src/components/ServiceRequestForm.tsx:17-26 | every text field starts empty and there is no date |
| RequestForm.UpdateFormData | src/components/ServiceRequestForm.tsx:58-60 | the named field gets the value; every other field, the date included, is unchanged |
| RequestForm.UpdateDate | src/components/ServiceRequestForm.tsx:177 | only the date changes |
| RequestForm.SameFieldsSame | src/components/ServiceRequestForm.tsx:17-26 | two requests that agree on every field are equal |
| RequestForm.UpdateIdempotentAndLastWins | src/components/ServiceRequestForm.tsx:58-60 | writing a value twice is writing it once; the last write to a field wins |
| RequestForm.UpdatesOfDistinctFieldsCommute | src/components/ServiceRequestForm.tsx:58-60 | writes to two different fields commute |
| RequestForm.UrgencyValue | src/components/ServiceRequestForm.tsx:43-47 | each button writes one of "flexible", "within-week", "urgent" |
| RequestForm.UrgencyValueInjective | src/components/ServiceRequestForm.tsx:43-47 | different buttons write different values |
| RequestForm.SelectedUrgency | src/components/ServiceRequestForm.tsx:213 | the highlighted button is the one whose value is the current urgency; none is highlighted for any other value |
| RequestForm.ServiceRequestForm.constructor | src/components/ServiceRequestForm.tsx:17-26 | the form starts empty |
| RequestForm.ServiceRequestForm.SetField | src/components/ServiceRequestForm.tsx:58-60 | the form becomes `UpdateFormData` of the old form |
| RequestForm.ServiceRequestForm.SetDate | src/components/ServiceRequestForm.tsx:177 | the form becomes `UpdateDate` of the old form |
| RequestForm.ServiceRequestForm.ChooseUrgency | src/components/ServiceRequestForm.tsx:211 | only the urgency changes, to the button's value, and that button is then the highlighted one |
| RequestForm.ServiceRequestForm.HandleSubmit | src/components/ServiceRequestForm.tsx:49-56 | the current answers are handed over and the form is not changed |
| Messaging.FindConversation | src/components/MessageCenter.tsx:98 | the result is nothing exactly when no conversation has the id; otherwise it is the first conversation with that id |
| Messaging.HighlightMatchesSelection | src/components/MessageCenter.tsx:113 | with distinct ids, the found conversation is the one and only list entry highlighted |
| Messaging.Alignment | src/components/MessageCenter.tsx:203 | a message is right-aligned exactly when the user sent it, and left-aligned otherwise |
| Messaging.MessageCenter.constructor | src/components/MessageCenter.tsx:12-13 | the conversations are the given list, conversation 1 is selected and the draft is empty |
| Messaging.MessageCenter.SelectedConversation | src/components/MessageCenter.tsx:98 | the selected conversation is a listed one with the selected id, and is missing exactly when no conversation has that id |
| Messaging.MessageCenter.SelectChat | src/components/MessageCenter.tsx:115 | the clicked conversation's id becomes the selection, so a listed conversation then resolves to one with its id |
| Messaging.MessageCenter.EditDraft | src/components/MessageCenter.tsx:234 | the draft becomes the typed text |
| Messaging.MessageCenter.HandleSendMessage | src/components/MessageCenter.tsx:91-96 | a draft of only whitespace is kept and nothing is sent; any other draft is sent as typed and cleared |
| Home.ApprovedServices | src/pages/Index.tsx:14 | `approvedServices`: no longer than the services; every entry is one of them and approved; every approved service is in it |
| Home.FeaturedProviders | src/pages/Index.tsx:15 | `featuredProviders`: at most three, a prefix of the approved services, each approved |
| Home.ShownCategories | src/pages/Index.tsx:110 | at most eight, a prefix of the categories |
| Home.ActiveServicesCount | src/pages/Index.tsx:79 | the "Active Services" figure is at most the number of services, and 0 when none is approved |
| Home.ApprovedServicesSpec | src/pages/Index.tsx:14 | exactly the approved services, in order and with their multiplicity |
| Home.ActiveServicesCountsApproved | src/pages/Index.tsx:79 | the "Active Services" figure is the number of approved services, counted one by one |
| Home.FeaturedProvidersSpec | src/pages/Index.tsx:15 | the featured providers are the first min(3, n) approved services |
| Home.ShownCategoriesSpec | src/pages/Index.tsx:110 | at most eight categories are shown, the first ones |
| Home.AvatarLetter | src/pages/Index.tsx:155 | one character: the name's first one, or "?" when the profile or name is missing or the name is empty |
| Admin.Heads | src/pages/AdminDashboard.tsx:321 | `map(n => n[0]).join('')`: at most one character per segment |
| Admin.Initials | src/pages/AdminDashboard.tsx:321 | the initials are characters of the name, never a space, and no more than the name's length |
| Admin.WordStarts | src/pages/AdminDashboard.tsx:321 | the reference definition of the initials, the characters that begin a word: characters of the string, never a space, no more than its length |
| Admin.HeadsOfSegments | src/pages/AdminDashboard.tsx:321 | empty segments add nothing; the initials are the first characters of the non-empty segments, one each, in order |
| Admin.InitialsAreWordStarts | src/pages/AdminDashboard.tsx:321 | the initials are the characters that begin a word, so leading, trailing and doubled spaces add nothing |
| Admin.HeadsOfSplit | src/pages/AdminDashboard.tsx:321 | the initials of the split segments agree with the word starts, with and without the first segment |
| Admin.InitialsWithoutSpace | src/pages/AdminDashboard.tsx:321 | a non-empty name without a space gives its first character |
| Admin.OverviewPending | src/pages/AdminDashboard.tsx:232 | `pendingProviders.slice(0, 3)`: at most three, a prefix of the pending list |
| Admin.OverviewPendingSpec | src/pages/AdminDashboard.tsx:232 | at most three pending applications are shown, the first ones |
| Admin.TypeBadge | src/pages/AdminDashboard.tsx:329 | the default badge exactly for providers, the secondary one otherwise |
| Admin.StatusBadge | src/pages/AdminDashboard.tsx:332 | the default badge exactly for active users, the destructive one otherwise |

## Left out

- Rendering, styling, icons, toasts, charts, date formatting and the `console.log` calls are not modelled; a submit's log call is modelled as the method returning what it logs.
- The wizard's progress figure (`Math.round(((currentStep - 1) / 3) * 100)`) is floating point and is not modelled.
- `src/hooks/useMessages.ts`, the Supabase data hooks, `useAdminAuth` and the routes in `src/App.tsx` are not part of this model. The message center uses its own fixed conversations and messages and does not call the hooks; the landing page's services and categories are parameters.
- Text.LowerChar, Text.Lower: `toLowerCase` is modelled on ASCII letters only; JavaScript also lower-cases other Unicode letters (such as 'Ä' to 'ä'), which the model leaves unchanged.
- Characters are Dafny `char`s, not UTF-16 code units, so `n[0]` and `charAt(0)` on a name that starts with a surrogate pair differ from the model.
- The pages pass field names as strings. The model uses one enumeration per section with exactly the fields the page writes; a misspelt field name, which would add a new key in JavaScript, is not modelled.
- Onboarding.BecomeProviderPage.ToggleAvailability, Onboarding.BecomeProviderPage.HandleNext, Onboarding.BecomeProviderPage.HandlePrevious: each reads the current state, as the page's handlers read the render's values (`formData`, `currentStep`) rather than an updater's argument. React's stale closure and batched state updates, which matter when two clicks arrive before a re-render, are not modelled.
- The service request form's select and text inputs (service, title, description, location, budget, time preference) are all writes through `UpdateFormData` and are not listed one by one.
- The request's date is an opaque calendar value.
- RequestForm.ServiceRequestForm.HandleSubmit: hands over any form. In the page the title, description and location inputs are `required` inside the `<form onSubmit>`, so the browser's own validation does not call the submit handler while any of them is empty; that browser-side gate is not modelled.
- Provider lists, category names, conversations and users are parameters; the fixed sample lists in the pages are not restated, except for the week days offered for availability and the three urgency buttons. The message center's sample messages appear only through the alignment of each one.
