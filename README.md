# Annigato cake designer — a Dafny model of its state core

Annigato is a children's cake-design web application. A child (or a parent)
picks a wizard mode, walks through the steps of that mode, chooses a theme,
a cake base and shape, a flavour, decorations, up to three colours and a
message, and may instead talk to a chat assistant whose replies can carry a
`choices` block that fills in those selections. The same store holds a
shopping cart, a cake catalogue with likes and user creations, the
administrator settings (image providers, chat provider and key, admin
password) persisted in browser storage, and the authentication state.

This project models that core in Dafny:

| file | module | models |
|---|---|---|
| `common.dfy` | `Common` | the JavaScript idioms the reducers rely on: `indexOf`, `splice(i, 1)`, the indexOf/splice/push toggle, `includes`, `join`, `toLowerCase`, object spread of one optional key, string truthiness |
| `creation_options.dfy` | `CreationOptions` | the fixed tables: the two step orders, the cake bases and their shapes, the colours, the step labels |
| `creation.dfy` | `Creation` | the creation wizard slice, as a class with one method per reducer, plus the step navigation and the chat-choices merge as functions |
| `cart.dfy` | `Cart` | the cart slice, as a class whose totals invariant every reducer keeps |
| `cakes.dfy` | `Cakes` | the catalogue slice: category filter, likes, creations |
| `settings.dfy` | `Settings` | the settings slice with its storage load and save, and the settings types and defaults |
| `auth.dfy` | `Auth` | the authentication slice and the UI-mode selector |
| `llm_service.dfy` | `LlmService` | the chat service: the module-level configuration, the send routing, the offline mock replies and the extraction of the `choices` block |
| `image_prompt.dfy` | `ImageGeneration` | the text prompt built for the image generator |
| `chat_assistant.dfy` | `ChatAssistant` | the send handler of the chat assistant component, which ties the chat log, the service, the settings and the choices together |

Redux reducers that change a slice in place are methods of a class whose
fields are the slice's state. Each method's `modifies` clause names only the
fields the reducer assigns, so every other field keeps its value. Pure
helpers are functions, and the properties relating several calls are lemmas.

Some inputs are passed in as parameters rather than modelled:
- the clock (message ids and timestamps);
- `JSON.parse` and `JSON.stringify` (functions returning typed options);
- the reply of a remote chat provider (an `Option<string>` in which `None`
  stands for a failed request).

Behaviours of the code worth noting:
- `goToStep` stores any step, including one outside the current step order;
  it does not clamp to the order.
- `setCakeMessage` stores the message unchanged; the 50-character limit is
  applied only by the message step's input field.
- The initial state has the step pointer on `theme` with an empty step list,
  so `nextStep` before a mode is chosen leaves the pointer where it is
  (`Creation.NavigationFromUnknownStep`).
- `applyAIChoices` replaces the colour list wholesale and can exceed the
  three-colour cap that `toggleColor` enforces
  (`Creation.ApplyChoicesBypassesColorCap`).

Monetary amounts are whole cents, not JavaScript floating-point numbers.

## Model

| member | source | states |
|---|---|---|
| `Common.Spread` | src/services/llmService.ts:62 | spreading a partial object over a base keeps the base's value of an absent key and takes the patch's value (even undefined) of a present one |
| `Common.IndexOf` | src/features/creation/creationSlice.ts:44 | indexOf returns -1 exactly when the element is missing, and otherwise the position of its first occurrence |
| `Common.RemoveAt` | src/features/creation/creationSlice.ts:85 | splice(i, 1) drops exactly the element at i, shifting the later elements down by one |
| `Common.Toggle` | src/features/creation/creationSlice.ts:81-89 | an absent element is appended, and a present one makes the list one shorter |
| `Common.TogglePresent` | src/features/creation/creationSlice.ts:81-89 | toggling a present element removes its first occurrence (the indexOf position), keeps every other element in order, and takes one copy off the multiset |
| `Common.ToggleTwiceAbsent` | src/features/creation/creationSlice.ts:81-89 | toggling an absent element appends it, and toggling it again restores the original list |
| `Common.ToggleFlipsMembership` | src/features/creation/creationSlice.ts:81-89 | on a duplicate-free list the toggle keeps it duplicate-free, flips the toggled element's membership and preserves everyone else's |
| `Common.FindFrom` | src/services/llmService.ts:161 | the search returns the first position at or after the start where the pattern occurs, or -1 when there is none |
| `Common.IncludesIffOccurs` | src/services/llmService.ts:138 | includes holds exactly when the pattern occurs somewhere in the string |
| `Common.JoinFramed` | src/services/imageGeneration.ts:62 | join places one separator after the first part and after each middle part, before the last |
| `Common.ToLower` | src/services/llmService.ts:131 | toLowerCase keeps the length and lowers each letter in place |
| `Common.Capitalize` | src/services/llmService.ts:151 | the first character is upper-cased and the rest is kept |
| `CreationOptions.StepsFor` | src/features/creation/creationSlice.ts:34 | each mode's step order is non-empty, duplicate-free and ends on the preview |
| `CreationOptions.StepKeysInjective` | src/data/creationOptions.ts:94-95 | two steps have the same key exactly when they are the same step |
| `CreationOptions.StepListsWellFormed` | src/data/creationOptions.ts:94-95 | the short flow is theme, flavor, message, preview; the detailed flow is base, flavor, decoration, colors, message, preview; both are duplicate-free and end on the preview |
| `CreationOptions.EveryBaseHasAShape` | src/data/creationOptions.ts:24-39 | every cake base offers at least one shape |
| `CreationOptions.ColorIds` | src/data/creationOptions.ts:80-91 | the colour ids list has one id per colour, in order |
| `CreationOptions.ColorIdsDistinct` | src/data/creationOptions.ts:80-91 | there are ten colours and their ids are distinct |
| `CreationOptions.StepLabelsCoverSteps` | src/data/creationOptions.ts:98-106 | every step of either flow has a label |
| `Creation.NextStepIsNeighbour` | src/features/creation/creationSlice.ts:43-48 | on a duplicate-free order, next moves to the following step and stays on the last |
| `Creation.PrevStepIsNeighbour` | src/features/creation/creationSlice.ts:50-55 | on a duplicate-free order, prev moves to the preceding step and stays on the first |
| `Creation.NextStepOf` | src/features/creation/creationSlice.ts:43-48 | next never leaves the order: it stays put or lands on a step of the order, and from a step outside a non-empty order it jumps to the first step |
| `Creation.PrevStepOf` | src/features/creation/creationSlice.ts:50-55 | prev stays put or lands on a step of the order, and from a step outside the order it stays put |
| `Creation.NavigationFromUnknownStep` | src/features/creation/creationSlice.ts:43-55 | from a step outside the order, next jumps to the first step (or does nothing on an empty order) and prev does nothing |
| `Creation.NavigationStaysInSteps` | src/features/creation/creationSlice.ts:43-55 | next and prev never move a pointer that is in the order out of it |
| `Creation.GrandPatissierWalk` | src/features/creation/creationSlice.ts:43-48 | five nexts from the first step of the detailed flow reach the preview at index 5, and a sixth stays there |
| `Creation.ToggleColorCapped` | src/features/creation/creationSlice.ts:91-99 | a present colour is always removed; an absent one is appended only below three; the three-colour cap is never exceeded |
| `Creation.ToggleColorIn` | src/features/creation/creationSlice.ts:91-99 | a present colour makes the list one shorter; an absent colour ends up in the list exactly when fewer than three were chosen; a list within the cap stays within it |
| `Creation.ApplyChoices` | src/features/creation/creationSlice.ts:142-161 | each string choice overwrites its selection only when truthy, each list choice whenever present, and every other selection is kept |
| `Creation.ApplyChoicesIdempotent` | src/features/creation/creationSlice.ts:142-161 | applying the same choices twice equals applying them once, and empty choices change nothing |
| `Creation.ApplyChoicesBypassesColorCap` | src/features/creation/creationSlice.ts:159 | choices can set four colours, past the cap of the colour toggle |
| `Creation.ApplyChoicesTruthiness` | src/features/creation/creationSlice.ts:158-160 | an empty decoration list clears the decorations, while an empty message leaves the message alone |
| `Creation.CreationStore.constructor` | src/features/creation/creationSlice.ts:6-26 | the initial state: no mode, pointer on theme, empty order, nothing selected, three empty image slots, closed and empty chat |
| `Creation.CreationStore.SetMode` | src/features/creation/creationSlice.ts:32-37 | the mode's step order is installed and the pointer is on its first step |
| `Creation.CreationStore.GoToStep` | src/features/creation/creationSlice.ts:39-41 | the pointer is set to the given step, unchecked |
| `Creation.CreationStore.NextStep` | src/features/creation/creationSlice.ts:43-48 | the pointer moves as `NextStepOf` says, and nothing else changes |
| `Creation.CreationStore.PrevStep` | src/features/creation/creationSlice.ts:50-55 | the pointer moves as `PrevStepOf` says, and nothing else changes |
| `Creation.CreationStore.SelectTheme` | src/features/creation/creationSlice.ts:57-59 | only the theme selection changes, to the given value |
| `Creation.CreationStore.SelectBase` | src/features/creation/creationSlice.ts:61-63 | only the base selection changes, to the given value |
| `Creation.CreationStore.SelectShape` | src/features/creation/creationSlice.ts:65-67 | only the shape selection changes, to the given value |
| `Creation.CreationStore.SelectSize` | src/features/creation/creationSlice.ts:69-71 | only the size selection changes, to the given value |
| `Creation.CreationStore.SelectFlavor` | src/features/creation/creationSlice.ts:73-75 | only the flavour selection changes, to the given value |
| `Creation.CreationStore.SelectGarniture` | src/features/creation/creationSlice.ts:77-79 | only the filling selection changes, to the given value |
| `Creation.CreationStore.ToggleDecoration` | src/features/creation/creationSlice.ts:81-89 | the decoration list is toggled on the id, and nothing else changes |
| `Creation.CreationStore.ToggleColor` | src/features/creation/creationSlice.ts:91-99 | the colour list is toggled with the cap of three, and a list within the cap stays within it |
| `Creation.CreationStore.SetCakeMessage` | src/features/creation/creationSlice.ts:101-103 | the message is stored unchanged |
| `Creation.CreationStore.SetAiPrompt` | src/features/creation/creationSlice.ts:105-107 | the prompt is stored unchanged |
| `Creation.CreationStore.SetGeneratedImage` | src/features/creation/creationSlice.ts:109-114 | the slot gets its image and loses its error, no slot is generating, and the other slots are untouched |
| `Creation.CreationStore.SetGenerating` | src/features/creation/creationSlice.ts:116-121 | the generating slot is set; a marked slot loses its error and clearing the mark leaves the errors alone |
| `Creation.CreationStore.SetGenerationError` | src/features/creation/creationSlice.ts:123-127 | the slot records its error and keeps its image, and no slot is generating |
| `Creation.CreationStore.SelectImage` | src/features/creation/creationSlice.ts:129-131 | the chosen image index is stored |
| `Creation.CreationStore.ToggleChat` | src/features/creation/creationSlice.ts:133-135 | the chat panel's open flag is negated |
| `Creation.CreationStore.AddChatMessage` | src/features/creation/creationSlice.ts:137-139 | the chat log grows by exactly the given message at its end |
| `Creation.CreationStore.ApplyAIChoices` | src/features/creation/creationSlice.ts:142-161 | the selections become `ApplyChoices` of the old selections, and nothing outside the selections changes |
| `Creation.CreationStore.ResetCreation` | src/features/creation/creationSlice.ts:163 | the whole slice is back in its initial state |
| `Creation.GrandPatissierScenario` | src/features/creation/creationSlice.ts:32-103 | choosing the detailed mode, five selections and five nexts leave the wizard on the preview at index 5 with every selection intact |
| `Creation.PickDecoration` | src/features/creation/creationSlice.ts:81-89 | toggling a decoration on an empty list selects just that decoration |
| `Creation.PickTwoColors` | src/features/creation/creationSlice.ts:91-99 | toggling two different colours on an empty list selects both, in order, within the cap |
| `Creation.SlotRetryScenario` | src/features/creation/creationSlice.ts:109-127 | a slot that failed and is then retried successfully has its image and no error, and the other slots are unchanged |
| `Cart.Added` | src/features/cart/cartSlice.ts:41-53 | for a known id, the first line with that id gains one in quantity and every other line is unchanged; a new id is appended with quantity 1 |
| `Cart.WithoutId` | src/features/cart/cartSlice.ts:56-62 | the filtered list is never longer than the cart |
| `Cart.WithoutIdMembers` | src/features/cart/cartSlice.ts:56-62 | a line is kept exactly when it is in the cart and has another id |
| `Cart.WithoutIdAppend` | src/features/cart/cartSlice.ts:56-62 | the filter distributes over concatenation, so the kept lines stay in order with their repetitions |
| `Cart.QuantityUpdated` | src/features/cart/cartSlice.ts:65-77 | for a known id, a positive quantity replaces the first matching line's quantity and keeps every other line; zero removes the id's lines; a negative quantity or an unknown id changes nothing |
| `Cart.SumBy` | src/features/cart/cartSlice.ts:51-52 | when every line contributes at least one, the total is at least the number of lines |
| `Cart.SumBySnoc` | src/features/cart/cartSlice.ts:51-52 | appending a line adds its share to a total |
| `Cart.SumByUpdate` | src/features/cart/cartSlice.ts:51-52 | replacing a line changes a total by the difference of the two shares |
| `Cart.SumByWithout` | src/features/cart/cartSlice.ts:56-62 | with distinct ids, removing a line subtracts its share from a total |
| `Cart.AddedTotals` | src/features/cart/cartSlice.ts:41-53 | adding raises the item count by one and the amount by the cake's price |
| `Cart.RemovedTotals` | src/features/cart/cartSlice.ts:56-62 | after removal the id is gone, an absent id changes nothing, and a present line's quantity and amount leave the totals |
| `Cart.UpdatedTotals` | src/features/cart/cartSlice.ts:65-77 | setting a positive quantity changes the totals by the difference for that line |
| `Cart.WithoutIdWellFormed` | src/features/cart/cartSlice.ts:56-62 | removal keeps the ids distinct and every quantity at least one |
| `Cart.AddedWellFormed` | src/features/cart/cartSlice.ts:41-53 | adding keeps the ids distinct and every quantity at least one |
| `Cart.QuantityUpdatedWellFormed` | src/features/cart/cartSlice.ts:65-77 | updating keeps the ids distinct and every quantity at least one, since a quantity of zero or less removes the line |
| `Cart.CartStore.constructor` | src/features/cart/cartSlice.ts:29-34 | an empty, closed cart with zero totals that satisfies the totals invariant |
| `Cart.CartStore.Recalculate` | src/features/cart/cartSlice.ts:51-52 | the totals are the sums of the quantities and of the line amounts |
| `Cart.CartStore.AddToCart` | src/features/cart/cartSlice.ts:41-53 | the lines become `Added`, the totals invariant holds, and the item count grows by one |
| `Cart.CartStore.RemoveFromCart` | src/features/cart/cartSlice.ts:56-62 | the lines become `WithoutId`, the id is gone, and the totals invariant holds |
| `Cart.CartStore.UpdateQuantity` | src/features/cart/cartSlice.ts:65-77 | the lines become `QuantityUpdated` and the totals invariant holds |
| `Cart.CartStore.ClearCart` | src/features/cart/cartSlice.ts:80-84 | no lines and zero totals |
| `Cart.CartStore.ToggleCart` | src/features/cart/cartSlice.ts:87-89 | the open flag is negated |
| `Cart.CartStore.OpenCart` | src/features/cart/cartSlice.ts:92-94 | the cart is open |
| `Cart.CartStore.CloseCart` | src/features/cart/cartSlice.ts:97-99 | the cart is closed |
| `Cakes.OfCategory` | src/features/cakes/cakesSlice.ts:79-88 | the filtered list is never longer than the catalogue |
| `Cakes.OfCategoryMembers` | src/features/cakes/cakesSlice.ts:79-88 | a cake is in the filtered list exactly when it is in the catalogue and has the category |
| `Cakes.OfCategoryAppend` | src/features/cakes/cakesSlice.ts:79-88 | the filter distributes over concatenation, so it keeps catalogue order |
| `Cakes.OfCategoryKeepsMatching` | src/features/cakes/cakesSlice.ts:79-88 | a list all of one category filters to itself |
| `Cakes.OfCategoryIdempotent` | src/features/cakes/cakesSlice.ts:79-88 | filtering twice by the same category equals filtering once |
| `Cakes.Filtered` | src/features/cakes/cakesSlice.ts:79-88 | "all" shows the whole catalogue, and any other key shows exactly the catalogue's cakes of that category |
| `Cakes.AllIsNotACategory` | src/features/cakes/cakesSlice.ts:82-87 | the key "all" matches no category, and selecting it shows the whole catalogue |
| `Cakes.LikesBumpedChangesOneCake` | src/features/cakes/cakesSlice.ts:91-106 | a like changes only the first cake with the id, and in it only the count, which moves by exactly the given amount; the length, the ids and every other cake are kept |
| `Cakes.ToggleLikeTwice` | src/features/cakes/cakesSlice.ts:91-106 | liking flips the cake's membership in the liked list, and liking twice restores both the list and the count |
| `Cakes.LikesBumped` | src/features/cakes/cakesSlice.ts:91-106 | a like keeps the catalogue's length and every cake's id |
| `Cakes.LikedCatalog` | src/features/cakes/cakesSlice.ts:91-106 | the first cake with the id loses a like when it was liked and gains one otherwise, with its other fields and every other cake kept; an unknown id changes nothing |
| `Cakes.LikesBumpedInverse` | src/features/cakes/cakesSlice.ts:91-106 | raising and then lowering a like count restores the catalogue |
| `Cakes.Merged` | src/features/cakes/cakesSlice.ts:115-125 | each key present in the update replaces the creation's value, and each absent key keeps it |
| `Cakes.Replaced` | src/features/cakes/cakesSlice.ts:115-136 | the first creation with the same id is overwritten and every other entry is kept; the length and ids are kept, and an unknown id changes nothing |
| `Cakes.MergedKeepsId` | src/features/cakes/cakesSlice.ts:115-125 | an update carrying the creation's own id keeps the id and is idempotent |
| `Cakes.CakesStore.constructor` | src/features/cakes/cakesSlice.ts:56-66 | an empty catalogue under "all", no creations, nothing loading, no error, no likes |
| `Cakes.CakesStore.SetCatalog` | src/features/cakes/cakesSlice.ts:73-76 | the catalogue and the shown list are both the given cakes |
| `Cakes.CakesStore.FilterByCategory` | src/features/cakes/cakesSlice.ts:79-88 | the shown list holds exactly the catalogue's cakes of the category, or all of them for "all" |
| `Cakes.CakesStore.ToggleLike` | src/features/cakes/cakesSlice.ts:91-106 | the liked list is toggled on the id and the cake's count moves up when liking and down when unliking; a liked list without duplicates stays without duplicates, so `Cakes.ToggleLikeTwice` applies to every reachable state |
| `Cakes.CakesStore.ToggleKeepsDistinct` | src/features/cakes/cakesSlice.ts:93-99 | toggling an id in a duplicate-free liked list leaves it duplicate-free |
| `Cakes.CakesStore.StartCreation` | src/features/cakes/cakesSlice.ts:109-112 | the creation becomes current and is appended to the user's creations |
| `Cakes.CakesStore.UpdateCreation` | src/features/cakes/cakesSlice.ts:115-125 | when the update names the current creation's id, the current creation is merged with it and replaces its list entry; otherwise nothing changes |
| `Cakes.CakesStore.SaveCreation` | src/features/cakes/cakesSlice.ts:128-136 | the current creation, if any, is marked completed both as the current creation and in its list entry; with none, nothing changes |
| `Cakes.CakesStore.SetLoading` | src/features/cakes/cakesSlice.ts:139-141 | the loading flag is set |
| `Cakes.CakesStore.SetGenerating` | src/features/cakes/cakesSlice.ts:143-145 | the generating flag is set |
| `Cakes.CakesStore.SetError` | src/features/cakes/cakesSlice.ts:148-150 | the error is set |
| `Settings.ProviderTable.Set` | src/features/settings/settingsSlice.ts:60-67 | the named provider gets the new configuration and every other provider keeps its own |
| `Settings.MergedProvider` | src/features/settings/settingsSlice.ts:63-65 | for each of the eight keys, a key present in the patch replaces the provider's value and an absent key keeps it |
| `Settings.Overlaid` | src/features/settings/settingsSlice.ts:14 | for each of the seven keys, a stored key overrides the default and an absent key keeps it |
| `Settings.Load` | src/features/settings/settingsSlice.ts:9-20 | nothing or an empty string stored, or unparsable data, gives the defaults; parsed data gives the defaults overlaid by it with the admin flag cleared; a loaded state is never signed in as admin |
| `Settings.Persisted` | src/features/settings/settingsSlice.ts:23-30 | the saved state is the current one with the admin flag cleared |
| `Settings.LoadAfterSave` | src/features/settings/settingsSlice.ts:9-30 | loading what was saved gives back the saved settings, signed out |
| `Settings.DefaultProvidersWellFormed` | src/types/settings.ts:34-60 | each default provider is filed under its own id and enabled, and only the placeholder needs no key |
| `Settings.SettingsStore.constructor` | src/features/settings/settingsSlice.ts:32 | the initial state is what `Load` reads from storage |
| `Settings.SettingsStore.Save` | src/features/settings/settingsSlice.ts:23-30 | the storage holds the serialised current settings with the admin flag cleared |
| `Settings.SettingsStore.AdminLogin` | src/features/settings/settingsSlice.ts:39-43 | the right password signs in and a wrong one leaves the flag as it was |
| `Settings.SettingsStore.AdminLogout` | src/features/settings/settingsSlice.ts:45-47 | the admin is signed out |
| `Settings.SettingsStore.ChangeAdminPassword` | src/features/settings/settingsSlice.ts:49-52 | the password is replaced and the settings are saved |
| `Settings.SettingsStore.SetActiveImageProvider` | src/features/settings/settingsSlice.ts:55-58 | the active provider is set and the settings are saved |
| `Settings.SettingsStore.UpdateImageProvider` | src/features/settings/settingsSlice.ts:60-67 | only the named provider is merged with the patch and the settings are saved |
| `Settings.SettingsStore.SetLlmProvider` | src/features/settings/settingsSlice.ts:70-73 | the chat provider is set and the settings are saved |
| `Settings.SettingsStore.SetLlmApiKey` | src/features/settings/settingsSlice.ts:75-78 | the chat key is set and the settings are saved |
| `Settings.SettingsStore.SetLlmModel` | src/features/settings/settingsSlice.ts:80-83 | the chat model is set and the settings are saved |
| `Settings.SettingsStore.ResetSettings` | src/features/settings/settingsSlice.ts:86-89 | the settings are the defaults and the stored copy is removed |
| `Settings.SettingsStore.ActiveProviderConfig` | src/features/settings/settingsSlice.ts:110-111 | the selector returns the configuration of the active provider |
| `Auth.SelectUiMode` | src/features/auth/authSlice.ts:86-90 | the parent interface exactly when no child is active, otherwise the active child's mode |
| `Auth.AuthStore.constructor` | src/features/auth/authSlice.ts:28-34 | nobody signed in, no child, not loading, no error |
| `Auth.AuthStore.LoginSuccess` | src/features/auth/authSlice.ts:41-46 | the user is signed in, loading stops and the error is cleared |
| `Auth.AuthStore.Logout` | src/features/auth/authSlice.ts:49-55 | back to the initial state, which shows the parent interface |
| `Auth.AuthStore.SelectChild` | src/features/auth/authSlice.ts:58-60 | the child becomes active and the interface follows the child's mode |
| `Auth.AuthStore.SetLoading` | src/features/auth/authSlice.ts:63-65 | the loading flag is set |
| `Auth.AuthStore.SetError` | src/features/auth/authSlice.ts:68-71 | the error is set and loading stops |
| `LlmService.Patched` | src/services/llmService.ts:9-11 | the provider is replaced when given, and each optional key is replaced when present and kept when absent |
| `LlmService.PatchedIdempotent` | src/services/llmService.ts:9-11 | an empty patch changes nothing and applying a patch twice equals applying it once |
| `LlmService.LlmService.constructor` | src/services/llmService.ts:4-54 | the configuration starts as Claude with the default model, no key and no base URL, and the system prompt is the assistant's fixed instructions |
| `LlmService.LlmService.SetLlmConfig` | src/services/llmService.ts:9-11 | the configuration becomes the old one patched |
| `LlmService.LlmService.GetLlmConfig` | src/services/llmService.ts:13-15 | the current configuration is returned |
| `LlmService.LlmService.SendChatMessage` | src/services/llmService.ts:58-76 | the reply is what the routing function gives for the effective configuration, and the configuration is unchanged |
| `LlmService.NonSystem` | src/services/llmService.ts:125 | exactly the messages that are not system messages are kept |
| `LlmService.NonSystemAppend` | src/services/llmService.ts:125 | the filter distributes over concatenation, so the kept messages stay in order |
| `LlmService.NonSystemCons` | src/services/llmService.ts:64-67 | the prepended system prompt is dropped again by the filter |
| `LlmService.ChatReplyRouting` | src/services/llmService.ts:58-127 | with no truthy key the mock answers the caller's messages; with a key Claude and OpenAI answer remotely, while Ollama falls to the default branch, where the mock answers the non-system messages |
| `LlmService.EffectiveConfig` | src/services/llmService.ts:62 | without a per-call configuration the module's one is used, with one it is spread over it, and a call that sets no key cannot supply one |
| `LlmService.CallProvider` | src/services/llmService.ts:78-127 | Claude and OpenAI get the full messages from the remote call, and any other provider gets the mock on the non-system messages |
| `LlmService.ChatReply` | src/services/llmService.ts:58-76 | a reply can fail only on a remote call: with a truthy key and a provider other than Ollama |
| `LlmService.UserCount` | src/services/llmService.ts:132 | the user-message count never exceeds the number of messages, and is zero exactly when no message is the user's |
| `LlmService.MockFirstTurn` | src/services/llmService.ts:136-137 | with at most one user message the mock asks for a theme and carries no choices block |
| `LlmService.MockKeywordPriority` | src/services/llmService.ts:136-154 | after the first turn the reply is the one of the first keyword group the last message matches, in the order unicorn, chocolate, vanilla, strawberry, decorations, colours, wishes, and the fallback when none matches |
| `LlmService.FirstGroupFrom` | src/services/llmService.ts:138-154 | the search returns the first keyword group the text matches, or the number of groups when none does |
| `LlmService.FirstMatchingGroupUnique` | src/services/llmService.ts:138-154 | only one group can be the first to match, so the branch taken is determined |
| `LlmService.MockResponse` | src/services/llmService.ts:130-157 | the reply is one of the nine scripted ones, and the theme question while the user has sent at most one message |
| `LlmService.MockBlockOnlyInSummary` | src/services/llmService.ts:136-154 | the only mock reply that carries a choices block is the summary |
| `LlmService.MockSummaryBlock` | src/services/llmService.ts:150-151 | the summary's choices block is exactly its JSON, which is what extraction hands to the parser |
| `LlmService.ChoicesBlock` | src/services/llmService.ts:161 | a block is found only at the leftmost opening fence, and it ends at the nearest closing fence after it |
| `LlmService.ChoicesBlockComplete` | src/services/llmService.ts:161 | whenever an opening fence is followed by a closing fence, a block is found |
| `LlmService.ExtractChoices` | src/services/llmService.ts:160-170 | choices come back exactly when the reply holds a non-empty block, and they are what the parser makes of that block |
| `LlmService.NoBlockWithoutBacktick` | src/services/llmService.ts:161 | a reply without a backtick has no block |
| `LlmService.BlockOfFramed` | src/services/llmService.ts:161 | a body between the first opening fence and a closing fence, with no backtick before or inside it, is the block found |
| `LlmService.FirstOpenAt` | src/services/llmService.ts:161 | with no backtick before it, the first opening fence is the one right after the prefix |
| `LlmService.FirstCloseAfter` | src/services/llmService.ts:161 | after the opening fence, the first closing fence is the one right after a body without backticks |
| `ImageGeneration.OptionalParts` | src/services/imageGeneration.ts:47-58 | at most six parts, and none exactly when no choice is truthy or non-empty |
| `ImageGeneration.BuildCakePrompt` | src/services/imageGeneration.ts:34-63 | the prompt is the preamble, each optional part followed by the separator, and the suffix |
| `ImageGeneration.PromptFramed` | src/services/imageGeneration.ts:43-62 | the prompt opens with the preamble and the separator and ends with the suffix |
| `ImageGeneration.PromptWithoutChoices` | src/services/imageGeneration.ts:43-62 | without choices the prompt is the preamble, the separator and the suffix |
| `ImageGeneration.PromptIgnoresShape` | src/services/imageGeneration.ts:37 | the chosen shape never changes the prompt |
| `ImageGeneration.PromptWithThemeOnly` | src/services/imageGeneration.ts:47 | a theme alone adds one part, "<theme> themed", right after the preamble |
| `ImageGeneration.PromptWithTwoColors` | src/services/imageGeneration.ts:47-62 | two colours alone add exactly one part after the preamble, the colours joined by " and " |
| `ChatAssistant.TrimStart` | src/features/creation/components/AIChatAssistant.tsx:49 | the result is a suffix of the input, everything removed is white space, and it does not start with white space |
| `ChatAssistant.TrimEnd` | src/features/creation/components/AIChatAssistant.tsx:49 | the result is a prefix of the input, everything removed is white space, and it does not end with white space |
| `ChatAssistant.Trim` | src/features/creation/components/AIChatAssistant.tsx:49 | the trimmed text is a slice of the input with only white space before and after it, and it neither starts nor ends with white space |
| `ChatAssistant.TrimEmptyIffBlank` | src/features/creation/components/AIChatAssistant.tsx:49-50 | the trimmed text is empty exactly when the input is all white space, so a blank text is never sent and any other text is |
| `ChatAssistant.History` | src/features/creation/components/AIChatAssistant.tsx:64-67 | the history is the log's roles and contents in order, followed by the new text as a user message |
| `ChatAssistant.HistoryUserCount` | src/features/creation/components/AIChatAssistant.tsx:64-67 | the history has one more user message than the log |
| `ChatAssistant.UserTurns` | src/features/creation/components/AIChatAssistant.tsx:64-67 | the user-turn count never exceeds the log's length, and is zero exactly when no entry is the user's |
| `ChatAssistant.CallPatch` | src/features/creation/components/AIChatAssistant.tsx:71-75 | the call passes the settings' provider and key, and the model only when it is truthy |
| `ChatAssistant.SettingsKeyDecides` | src/features/creation/components/AIChatAssistant.tsx:71-75 | the settings' key, not the service's, decides between the mock and a remote provider |
| `ChatAssistant.FirstSendWithoutKey` | src/features/creation/components/AIChatAssistant.tsx:64-75 | the first message sent without a key is answered by the theme question, which carries no choices |
| `ChatAssistant.ReplyMessage` | src/features/creation/components/AIChatAssistant.tsx:78-98 | the assistant's entry holds the reply, or the apology when the call failed |
| `ChatAssistant.ChoicesOf` | src/features/creation/components/AIChatAssistant.tsx:87-90 | a failed call yields no choices; choices come only from a reply with a block, and a reply with a non-empty block yields what the parser makes of it |
| `ChatAssistant.HandleSend` | src/features/creation/components/AIChatAssistant.tsx:48-102 | a message is sent exactly when the trimmed text is non-empty and no request is running; then the log gains the user's message and the reply (or the apology), and the selections take any choices the reply carries |
| `ChatAssistant.Exchange` | src/features/creation/components/AIChatAssistant.tsx:52-90 | once past the guard, the log gains the user's message and the reply (or the apology), and the selections take any choices the reply carries |
| `ChatAssistant.SendUserTurn` | src/features/creation/components/AIChatAssistant.tsx:52-76 | the user's message is logged, and the reply is the service's answer to the earlier log plus the message, under the settings' provider, key and model |
| `ChatAssistant.RecordReply` | src/features/creation/components/AIChatAssistant.tsx:77-98 | the reply, or the apology after a failed call, is logged, and the selections take exactly the choices the reply carries |

## Left out

- The React components, pages and routing are not modelled; the one exception is the send handler of the chat assistant.
- The chat assistant's own loading flag is an input of `ChatAssistant.HandleSend`; setting and clearing it, and clearing the input field, are not modelled, because they are component state outside the stores.
- The `fetch` calls of the Claude and OpenAI branches, their headers and their request bodies are not modelled. A remote reply is an `Option<string>` parameter, so the "not understood" fallback strings of those branches are part of that parameter.
- `async`/`await`, promises and the 800 ms `setTimeout` of the mock are not modelled, because the model has no time; each reply is computed at once.
- `Date.now()` message ids and timestamps are parameters.
- The image generator itself is out of scope: `generateCakeImage`, `buildPollinationsUrl` and the provider HTTP calls. Only the text prompt is modelled.
- `Creation.CreationStore.SetGeneratedImage`, `SetGenerating` and `SetGenerationError` require a slot index below three. The source writes at any index, which would change the length of the slot arrays. This bound is a modelling choice, not a promise of the callers: the only dispatches in the repository (src/features/creation/components/PreviewStep.tsx:57-66) pass `true`, an image URL and an error message rather than the slot index or `{index, ...}` payload the reducers expect.
- `JSON.parse` and `JSON.stringify` are function parameters. Values of the wrong type inside parsed JSON are not modelled: the parser returns typed choices or nothing.
- Browser storage exceptions and the console warning on a failed load are not modelled; storage is a field that holds an optional string.
- `Cakes.Merged`, `Settings.MergedProvider` and `LlmService.Patched`: for keys whose type is not optional, a patch value that is present but undefined is not modelled. The key is either absent or carries a value.
- Case mapping and `trim` are limited to ASCII letters and ASCII white space. Unicode case folding and Unicode spaces are not modelled.
- Prices and like counts are integers (prices in cents) rather than floating point.
- The option tables for themes, sizes, flavours and decorations, the icons and the colour hex codes carry no logic and are not modelled. The colour table keeps its ids, names and hex codes.
- The selectors are not modelled, except `selectActiveProviderConfig` and `selectUIMode`; the others read a single field.
- The wizard's per-step "can proceed" checks and the 50-character limit of the message field live in the step components and are not modelled.
- A like updates `catalog` only; `filteredCatalog` keeps the cakes it was built from, with their old counts, as in the source, where Immer copies the liked cake rather than sharing it between the two lists.
- `LlmService.SystemPrompt`: the system prompt is kept verbatim as a constant; nothing about its wording is proved.
