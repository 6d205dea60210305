# Campaign manager decision rules, in Dafny

The system is a tabletop role-playing campaign manager. A Django backend
holds users, campaigns, join requests, sessions, notes, storylines and
character sheets. A React frontend gives the game master a "desk" of pages
over them. There is no protocol or storage engine here. The logic worth
proving is a set of small decision rules spread over both halves:

- `Settings` (`settings.dfy`): the environment-flag parsers `env_bool` and
  `env_list` of the Django settings.
- `Serializers` (`serializers.dfy`): registration and campaign validation,
  the derived campaign fields (owner flag, join code, players, counts, the
  viewer's own request status), and how character class text is resolved
  through a find-or-create name table. The `validated_data` rewrite is a
  class whose methods pop and assign, as the source does.
- `RegisterPage` (`register_page.dfy`): the per-field registration rules,
  the error map `validateForm` builds, and the gate in `handleSubmit`.
- `CampaignsPage` (`campaigns_page.dfy`): the owned/joined/archived lists,
  grouping incoming requests by campaign (a loop over a map), the join
  button's label and disabled rule, the join guards, and the campaign form.
- `DashboardPage` (`dashboard_page.dfy`): replace-by-id, append and
  delete-by-id on the four lists, the selection fallback after a delete or
  a load, the in-place sort of loaded sessions, and the submit guards.
- `DeskLayout` (`desk_layout.dfy`): the campaign selection held in the
  query string, the active-campaign list, the reconciliation effect and the
  navigation links.
- `CharactersPage` (`characters_page.dfy`): the default character sheet
  draft and its field tables, single-key updates, the form serialisation,
  the edit merge over defaults, and cancel/reset. The source writes the
  default draft out key by key. The model builds its ability, saving-throw,
  skill and spell-slot blocks from the page's tables instead. The keys,
  values and order are the same.
- `StorylinePage` (`storyline_page.dfy`): loading the outcome map, the
  storyline and outcome submit guards, outcome ordering, and the
  per-storyline outcome drafts.
- `Api` (`api.dfy`): header assembly with the bearer token, the
  error-message fallback chain, 204 handling, query strings, `results ?? []`,
  and the token store in local storage.
- `Common` (`common.dfy`): `Option`, ASCII whitespace and trimming,
  lower-casing, split/join, filtering, and JavaScript's `Number`/`String`
  on integers and its truthiness.

Page state is a class per page whose fields are the React state; each
handler is a method with a `modifies` frame naming the state it sets.
Whatever a network call returned (a saved record, a fetched list, or the
message of the error it threw) is a parameter of the handler, so success
and failure are both covered.

The storyline form resets its order to one past the storylines listed
before the save, as `StorylinePage.tsx` does at line 63; the model keeps
that. The dashboard's session number has the same stale read, and there
the model uses the corrected number (see "Findings").

## Model

| member | source | states |
|---|---|---|
| Settings.EnvList | backend/config/settings.py:14-20 | Unset or empty gives the default. A value that strips to `*` gives exactly `["*"]`. Otherwise every item is non-empty, has no surrounding whitespace and holds no comma. |
| Settings.StrippedItems | backend/config/settings.py:20 | Dropping blanks after stripping leaves only non-empty, stripped items. |
| Settings.StrippedItemsHaveNoSeparator | backend/config/settings.py:20 | Items cut at a separator never contain that separator. |
| Settings.EnvListBlankIsEmpty | backend/config/settings.py:15-20 | A set but whitespace-only value gives the empty list, not the default. |
| Settings.EnvListRoundTrip | backend/config/settings.py:14-20 | Joining clean, comma-free items with commas and parsing the result gives the items back, in order. |
| Settings.StrippedItemsOfClean | backend/config/settings.py:20 | Items that are already non-empty and stripped pass through unchanged. |
| Settings.SplitOfWhitespace | backend/config/settings.py:20 | Cutting whitespace-only text gives whitespace-only pieces. |
| Settings.StrippedItemsOfBlanks | backend/config/settings.py:20 | Whitespace-only pieces are all dropped. |
| Settings.JoinEnds | backend/config/settings.py:20 | Joining clean items gives text with no whitespace at either end. |
| Settings.EnvBoolDefaultOnlyWhenUnset | backend/config/settings.py:7-11 | The default decides the result exactly when the variable is unset. |
| Settings.EnvBoolIgnoresCase | backend/config/settings.py:11 | Values that agree after lower-casing give the same flag. |
| Settings.EnvBoolIgnoresPadding | backend/config/settings.py:11 | Surrounding whitespace does not change the flag. |
| Settings.EnvBoolAcceptsTrueWords | backend/config/settings.py:11 | `1`, `true`, `yes` and `on`, padded with whitespace, are true. |
| Settings.EnvBoolBlankIsFalse | backend/config/settings.py:11 | A set but blank value is false whatever the default. |
| Settings.TrimCommutesWithLower | backend/config/settings.py:11 | Stripping and lower-casing may be done in either order. |
| Serializers.ValidateRegistration | backend/accounts/serializers.py:38-43 | Fails, on field `password`, exactly when the two passwords differ. Otherwise the attributes come back unchanged. |
| Serializers.ValidateCampaign | backend/accounts/serializers.py:101-116 | A supplied limit below 1 is refused. Validation passes exactly when the limit is at least 1 and, on update, the effective limit covers the accepted players. |
| Serializers.CreateChecksOnlyLowerBound | backend/accounts/serializers.py:101-116 | On create only the lower bound is checked. |
| Serializers.UpdateKeepsSeatsForPlayers | backend/accounts/serializers.py:106-115 | An accepted update never leaves fewer seats than players. |
| Serializers.JoinCode | backend/accounts/serializers.py:118-125 | The code is shown exactly to the authenticated owner, and it is the campaign's code. |
| Serializers.PlayersCountIsPlayersLength | backend/accounts/serializers.py:130-153 | `players_count` is the length of `players`. |
| Serializers.PlayersOfAppendedRequest | backend/accounts/serializers.py:130-146 | A new request adds a player at the end exactly when it is accepted, so players keep request order. |
| Serializers.PendingRequestsCount | backend/accounts/serializers.py:155-162 | Zero for anyone but the owner; for the owner, the number of pending requests. It never exceeds the requests. |
| Serializers.PendingPlusPlayersBounded | backend/accounts/serializers.py:148-162 | Pending requests plus players never exceed the requests. |
| Serializers.PendingAndAcceptedDisjoint | backend/accounts/serializers.py:148-162 | No request is counted both as pending and as a player. |
| Serializers.MyRequestStatus | backend/accounts/serializers.py:164-173 | Nothing for anonymous viewers and the owner. Otherwise the status of the viewer's first request, and nothing only when the viewer has none. |
| Serializers.GetOrCreate | backend/accounts/serializers.py:360 | The name ends up in the table and maps to the returned id. An existing name changes nothing. Existing ids are kept and ids stay distinct. |
| Serializers.ResolveClass | backend/accounts/serializers.py:354-361 | No class exactly when the text is missing or strips to nothing, and then the table is untouched. Otherwise the class is the one named by the stripped text. |
| Serializers.ResolveBlankIsNone | backend/accounts/serializers.py:354-359 | Missing or whitespace-only text resolves to no class and creates nothing. |
| Serializers.ResolveClassTwice | backend/accounts/serializers.py:354-361 | Resolving the same stripped name twice gives the same class and creates nothing the second time. |
| Serializers.ResolveClassKeepsExisting | backend/accounts/serializers.py:360 | Classes that already exist keep their ids. |
| Serializers.ValidateCharacter | backend/accounts/serializers.py:363-366 | Fails, on `character_class_text`, exactly on create with neither a class nor truthy class text. |
| Serializers.CharacterPayload.PrepareCreate | backend/accounts/serializers.py:368-372 | The text is popped. Non-empty text always replaces the class, with none when it is blank. Otherwise the class and the table are kept. |
| Serializers.CharacterPayload.PrepareUpdate | backend/accounts/serializers.py:374-380 | The text is popped. The class is written only when the text resolves to one. |
| Serializers.SavedClass | backend/accounts/serializers.py:368-380 | An absent entry keeps the stored class, a null entry clears it, and a given class is stored. |
| RegisterPage.With | fronend/src/pages/RegisterPage.tsx:21-23 | The named field takes the value and every other field is unchanged. |
| RegisterPage.EmailShapeIsPattern | fronend/src/pages/RegisterPage.tsx:41 | The executable e-mail test accepts exactly the strings `^[^\s@]+@[^\s@]+\.[^\s@]+$` matches. |
| RegisterPage.EmailPatternIsNotBlank | fronend/src/pages/RegisterPage.tsx:39-43 | A matching address is never blank, so "required" and "invalid" cannot both apply. |
| RegisterPage.FirstIndexOf | fronend/src/pages/RegisterPage.tsx:41 | The result is the first position holding the character, or the length when there is none. |
| RegisterPage.UsernameRule | fronend/src/pages/RegisterPage.tsx:33-37 | "Required" exactly when blank after trimming. No error exactly when non-blank and at least 3 characters untrimmed. |
| RegisterPage.EmailRule | fronend/src/pages/RegisterPage.tsx:39-43 | "Required" exactly when blank. No error exactly when the address matches the pattern. |
| RegisterPage.PasswordRule | fronend/src/pages/RegisterPage.tsx:45-49 | "Required" exactly when empty. No error exactly when at least 8 characters, with no trimming. |
| RegisterPage.ConfirmationRule | fronend/src/pages/RegisterPage.tsx:51-55 | "Required" exactly when empty. No error exactly when it equals the password. |
| RegisterPage.RecordAllIsErrorMap | fronend/src/pages/RegisterPage.tsx:31-56 | Recording the four outcomes in turn leaves an entry for exactly the failing fields, each holding that field's message. |
| RegisterPage.ErrorMapOfChecks | fronend/src/pages/RegisterPage.tsx:31-56 | A map recording the four rules' outcomes for a form is that form's error map, field by field. |
| RegisterPage.NewErrors | fronend/src/pages/RegisterPage.tsx:31-58 | The built map holds one entry per failing field, that field's first failing rule, and nothing else. It is empty exactly when every rule passes. |
| RegisterPage.NoErrorsIffValid | fronend/src/pages/RegisterPage.tsx:57-58 | The error map is empty exactly when every rule passes. |
| RegisterPage.ValidFormPassesBackend | fronend/src/pages/RegisterPage.tsx:51-55 | A form the page accepts also passes the backend's password-confirmation check. |
| RegisterPage.RegisterForm.HandleChange | fronend/src/pages/RegisterPage.tsx:21-28 | Only the named field changes. Only that field's error is blanked, and only when it was shown. |
| RegisterPage.RegisterForm.ValidateForm | fronend/src/pages/RegisterPage.tsx:30-59 | The errors become the error map of the form, and the result is true exactly when every rule passes. |
| RegisterPage.RegisterForm.HandleSubmit | fronend/src/pages/RegisterPage.tsx:61-86 | Registration is sent, with the form as it is, exactly when it is valid. Otherwise nothing is sent and the errors are shown. Success and failure set the message or the error. |
| CampaignsPage.ListPredicatesExclusive | fronend/src/pages/desk/CampaignsPage.tsx:48-59 | Every campaign meets exactly one of the owned, joined and archived tests. |
| CampaignsPage.ListsPartition | fronend/src/pages/desk/CampaignsPage.tsx:48-59 | The three lists together are the campaigns as a multiset, and their lengths add up. |
| CampaignsPage.ListsKeepOrder | fronend/src/pages/desk/CampaignsPage.tsx:48-59 | Each list is a subsequence of the campaigns. |
| CampaignsPage.GroupByCampaign | fronend/src/pages/desk/CampaignsPage.tsx:61-69 | The loop builds exactly the grouped map and its key order. |
| CampaignsPage.GroupedIsFilter | fronend/src/pages/desk/CampaignsPage.tsx:61-69 | Each campaign's group is exactly its requests, in input order. |
| CampaignsPage.GroupedNonEmpty | fronend/src/pages/desk/CampaignsPage.tsx:61-69 | No group is empty. |
| CampaignsPage.KeyOrderListsKeys | fronend/src/pages/desk/CampaignsPage.tsx:61-69 | The key order lists every key of the map exactly once. |
| CampaignsPage.GroupSizesSum | fronend/src/pages/desk/CampaignsPage.tsx:61-69 | The group sizes add up to the number of requests. |
| CampaignsPage.NoGroupWithoutRequests | fronend/src/pages/desk/CampaignsPage.tsx:61-69 | A campaign with no request has no group. |
| CampaignsPage.JoinDisabledIff | fronend/src/pages/desk/CampaignsPage.tsx:291-301 | The button is disabled exactly when it shows a non-default label, the request was rejected, or there is no character. |
| CampaignsPage.EnabledJoinShowsDefault | fronend/src/pages/desk/CampaignsPage.tsx:291-301 | An enabled button shows the default label. |
| CampaignsPage.RejectedKeepsDefaultLabel | fronend/src/pages/desk/CampaignsPage.tsx:291-301 | A rejected request keeps the default label but disables the button. |
| CampaignsPage.OwnerLabelWins | fronend/src/pages/desk/CampaignsPage.tsx:291-299 | The owner label wins over every status and over a full campaign. |
| CampaignsPage.SubmitPayload | fronend/src/pages/desk/CampaignsPage.tsx:116-119 | Every field is carried over except the limit. The limit is the number typed when that is truthy and 1 otherwise, so it is never 0. |
| CampaignsPage.EditedPayloadRoundTrip | fronend/src/pages/desk/CampaignsPage.tsx:134-145 | Editing a campaign and saving unchanged sends its stored fields back, unless its limit is 0. |
| CampaignsPage.PayloadAgainstServerBound | fronend/src/pages/desk/CampaignsPage.tsx:116-119 | The backend's lower bound accepts the payload's limit exactly unless a negative number was typed, which the page lets through. |
| CampaignsPage.SumSizesUpdateIn | fronend/src/pages/desk/CampaignsPage.tsx:65-67 | Replacing one listed group changes the total by the difference in its size. |
| CampaignsPage.CampaignsDesk.DefaultJoinCharacter | fronend/src/pages/desk/CampaignsPage.tsx:106-110 | The first character is chosen only when none is chosen and there is one; nothing else changes. |
| CampaignsPage.CampaignsDesk.HandleJoinByCode | fronend/src/pages/desk/CampaignsPage.tsx:158-179 | A missing character is reported before a blank code. A request is sent exactly when both are present, and it carries the trimmed code. Success clears the code; failure shows the message. |
| CampaignsPage.CampaignsDesk.HandleJoinPublic | fronend/src/pages/desk/CampaignsPage.tsx:181-197 | Only the character is checked. The request names the campaign and the character, and the outcome sets the join error. |
| CampaignsPage.CampaignsDesk.HandleSubmit | fronend/src/pages/desk/CampaignsPage.tsx:112-132 | An update when editing, else a create, both with the coerced payload. Success resets the form; failure keeps it and shows the message. |
| CampaignsPage.CampaignsDesk.HandleEdit | fronend/src/pages/desk/CampaignsPage.tsx:134-145 | An owned campaign is loaded into the form. Any other campaign changes nothing. |
| CampaignsPage.CampaignsDesk.CancelEdit | fronend/src/pages/desk/CampaignsPage.tsx:398-408 | The form returns to the default draft with no campaign being edited. |
| DashboardPage.ReplaceById | fronend/src/pages/DashboardPage.tsx:177 | Same length. Items with the returned id become the returned record; every other item is unchanged. |
| DashboardPage.ReplaceKeepsIds | fronend/src/pages/DashboardPage.tsx:177 | Replacing keeps the sequence of ids. |
| DashboardPage.ReplaceIdempotent | fronend/src/pages/DashboardPage.tsx:235 | Replacing twice with the same record is replacing once. |
| DashboardPage.ReplaceMissingIsIdentity | fronend/src/pages/DashboardPage.tsx:294 | A record whose id is not listed changes nothing. |
| DashboardPage.DeleteRemovesOnlyId | fronend/src/pages/DashboardPage.tsx:204 | Every item with the id is removed; every other item stays, in order. The list shrinks by exactly the number of items with the id. |
| DashboardPage.DeleteMissingIsIdentity | fronend/src/pages/DashboardPage.tsx:267 | Deleting an id that is not listed changes nothing. |
| DashboardPage.DeleteUndoesAppend | fronend/src/pages/DashboardPage.tsx:181 | Appending a record with a fresh id and deleting it restores the list. |
| DashboardPage.DeleteIdempotent | fronend/src/pages/DashboardPage.tsx:315 | Deleting twice is deleting once. |
| DashboardPage.FirstId | fronend/src/pages/DashboardPage.tsx:207 | None exactly for the empty list; otherwise the first item's id. |
| DashboardPage.DeleteKeepsSelectionValid | fronend/src/pages/DashboardPage.tsx:203-213 | After a delete the fallback selection is null or names a surviving item. |
| DashboardPage.SelectionAfterLoad | fronend/src/pages/DashboardPage.tsx:131-134 | The result is null or a listed id. A truthy selection that is still listed is kept; otherwise the result is the first item's id, or null for an empty list. |
| DashboardPage.KeepsSelection | fronend/src/pages/DashboardPage.tsx:177 | A list with the same ids keeps a valid selection valid. |
| DashboardPage.SortByNumber | fronend/src/pages/DashboardPage.tsx:129 | The array ends sorted by session number and is a permutation of what it held. The sort is stable: sessions sharing a number keep their order. |
| DashboardPage.SwapKeepsTieOrder | fronend/src/pages/DashboardPage.tsx:129 | Exchanging two neighbours with different numbers keeps every tie in order. |
| DashboardPage.InsertInto | fronend/src/pages/DashboardPage.tsx:129 | One element joins the sorted prefix; the contents are a permutation and ties keep their order. |
| DashboardPage.SwapDown | fronend/src/pages/DashboardPage.tsx:129 | Two neighbours with different numbers are exchanged and nothing else moves; ties keep their order. |
| DashboardPage.NextSessionNumber | fronend/src/pages/DashboardPage.tsx:242-246 | The number offered after a save is positive. When listed numbers run no higher than the count, no listed session has it. |
| DashboardPage.StaleNumberRepeatsCreated | fronend/src/pages/DashboardPage.tsx:242-246 | After a create, the number as written repeats the created session's number; the corrected one is higher than every listed number. |
| DashboardPage.CharacterPayloadOf | fronend/src/pages/DashboardPage.tsx:324-342 | Class 0 is refused before a blank name. A payload exists exactly when both checks pass, and it carries the name and class. Its level is at least 1 unless a negative level was typed. |
| DashboardPage.Dashboard.constructor | fronend/src/pages/DashboardPage.tsx:43-60 | Empty lists, no selection. |
| DashboardPage.Dashboard.LoadCampaigns | fronend/src/pages/DashboardPage.tsx:93-115 | On success the campaigns and characters are replaced and the selection follows the load rule, so it stays valid. A failed fetch shows its message and keeps both lists and the selection. |
| DashboardPage.Dashboard.LoadSessions | fronend/src/pages/DashboardPage.tsx:120-141 | With a selected campaign, the sessions are the loaded list stably sorted by number, and the selection follows the load rule; a failed fetch shows its message and keeps both. Without a campaign, both are cleared. |
| DashboardPage.Dashboard.LoadNotes | fronend/src/pages/DashboardPage.tsx:143-158 | Notes are the loaded list when a session is selected, else empty; a failed fetch shows its message and keeps them. |
| DashboardPage.Dashboard.CampaignSubmit | fronend/src/pages/DashboardPage.tsx:171-188 | An edit replaces by id. A create appends and selects the new campaign. Success resets the form; failure keeps everything and shows the message. |
| DashboardPage.Dashboard.CampaignDelete | fronend/src/pages/DashboardPage.tsx:199-217 | The campaign is removed. If it was selected, the first remaining one is selected and sessions, session selection and notes are cleared; otherwise the selection is unchanged. |
| DashboardPage.Dashboard.SessionSubmit | fronend/src/pages/DashboardPage.tsx:219-250 | Needs a selected campaign. Replace or append-and-select. The form resets to the next session number. The editing id is cleared only by a successful update and is otherwise unchanged. |
| DashboardPage.Dashboard.SessionDelete | fronend/src/pages/DashboardPage.tsx:262-278 | The session is removed. A deleted selection moves to the first remaining session and the notes are cleared. |
| DashboardPage.Dashboard.NoteSubmit | fronend/src/pages/DashboardPage.tsx:280-304 | Needs a selected session. Replace or append. The form clears on success. The editing id is cleared only by a successful update and is otherwise unchanged. |
| DashboardPage.Dashboard.NoteDelete | fronend/src/pages/DashboardPage.tsx:311-319 | Success removes the note; failure keeps the list and shows the message. |
| DashboardPage.Dashboard.PreselectClass | fronend/src/pages/DashboardPage.tsx:160-164 | A draft without a class gets the first class; the other fields are kept. |
| DashboardPage.Dashboard.CharacterSubmit | fronend/src/pages/DashboardPage.tsx:321-364 | Sends exactly the checked payload. Replace or append. Success resets the form with the first class preselected. The editing id is cleared only by a successful update and is otherwise unchanged. |
| DashboardPage.Dashboard.CharacterDelete | fronend/src/pages/DashboardPage.tsx:380-388 | Success removes the character; failure keeps the list and shows the message. |
| DeskLayout.SelectedCampaignId | fronend/src/pages/DeskLayout.tsx:12-14 | Null exactly when the parameter is absent or empty; otherwise the parameter read as a number. |
| DeskLayout.ActiveCampaignsAreTheUnarchived | fronend/src/pages/DeskLayout.tsx:16-19 | The active list holds exactly the non-archived campaigns, in their order. |
| DeskLayout.SelectedCampaign | fronend/src/pages/DeskLayout.tsx:21-24 | The result is a listed campaign with the selected id, archived or not. It is null exactly when none matches. |
| DeskLayout.SelectedCampaignIsFirstMatch | fronend/src/pages/DeskLayout.tsx:21-24 | The result is the first campaign that matches. |
| DeskLayout.ParamFor | fronend/src/pages/DeskLayout.tsx:31 | The written parameter reads back as the same id. |
| DeskLayout.NavTargetCarriesSelection | fronend/src/pages/DeskLayout.tsx:142 | A link keeps its path. It gets `?campaign=` exactly when a campaign is selected, and the text after it reads back as the selection. |
| DeskLayout.FirstActive | fronend/src/pages/DeskLayout.tsx:39 | None exactly when no campaign is active; otherwise the head of the active list. |
| DeskLayout.Desk.Reconcile | fronend/src/pages/DeskLayout.tsx:26-33 | With an active campaign, a falsy or inactive selection becomes the first active one, so the selection always names an active campaign. With none, nothing changes. |
| DeskLayout.Desk.RefreshCampaigns | fronend/src/pages/DeskLayout.tsx:35-44 | The list is replaced. A truthy selection is kept; otherwise the first non-archived campaign, if any, is selected. |
| DeskLayout.Desk.SelectCampaign | fronend/src/pages/DeskLayout.tsx:64-66 | The query then selects that id. |
| CharactersPage.SetField | fronend/src/pages/desk/CharactersPage.tsx:226-228 | The keys stay as they were. The given key takes the value and every other entry is unchanged. |
| CharactersPage.AbilityKeysAreDraftKeys | fronend/src/pages/desk/CharactersPage.tsx:160-167 | Every key the ability table refers to is a key of the default draft. |
| CharactersPage.SavingThrowKeysAreDraftKeys | fronend/src/pages/desk/CharactersPage.tsx:169-176 | Every key the saving-throw table refers to is a key of the default draft. |
| CharactersPage.SkillKeysAreDraftKeys | fronend/src/pages/desk/CharactersPage.tsx:178-197 | Every key the skill table refers to is a key of the default draft. |
| CharactersPage.SpellSlotKeysAreDraftKeys | fronend/src/pages/desk/CharactersPage.tsx:199 | For levels 1 to 9, each `spell_slots_<n>` key is a key of the default draft. |
| CharactersPage.PairEntriesMatchRows | fronend/src/pages/desk/CharactersPage.tsx:160-197 | Laid out two fields per row, a table's value key and its modifier or proficiency key sit at that row's two places in the draft. |
| CharactersPage.LevelEntriesMatchLevels | fronend/src/pages/desk/CharactersPage.tsx:117-143 | The spell-slot block holds the total, used and spell-list fields of each level, level by level. |
| CharactersPage.PairTableKeys | fronend/src/pages/desk/CharactersPage.tsx:160-199 | When a block lists a table's keys pairwise, every table key is a key of any draft that starts with the block. |
| CharactersPage.HasKeyAfter | fronend/src/pages/desk/CharactersPage.tsx:9-144 | A key of a later block is a key of the whole draft. |
| CharactersPage.Encode | fronend/src/pages/desk/CharactersPage.tsx:238-241 | Booleans become `true`/`false` and text is sent as it is. |
| CharactersPage.EncodeReadsBack | fronend/src/pages/desk/CharactersPage.tsx:238-241 | Reading a sent value back by its field's kind gives the value. |
| CharactersPage.FieldEntries | fronend/src/pages/desk/CharactersPage.tsx:235-242 | One entry per draft key, in key order, with the encoded value. |
| CharactersPage.Serialize | fronend/src/pages/desk/CharactersPage.tsx:235-248 | The loop builds the field entries followed by the image entries. |
| CharactersPage.AppendFields | fronend/src/pages/desk/CharactersPage.tsx:235-242 | The loop appends one entry per draft field, in key order, named by the key and holding the encoded value. |
| CharactersPage.SerializedForm | fronend/src/pages/desk/CharactersPage.tsx:235-248 | Each draft key appears once, at its own position, and reads back to its value. Images come after the fields, only when chosen. |
| CharactersPage.MergeOverDefaults | fronend/src/pages/desk/CharactersPage.tsx:272-278 | Exactly the default keys. Each takes the character's stored value when present and not null, else the default. |
| CharactersPage.EditDraft | fronend/src/pages/desk/CharactersPage.tsx:272-279 | The new draft has exactly the default keys. The class text comes from the class name; every other field is the stored value when present and not null, else the default. |
| CharactersPage.CharacterSheetForm.constructor | fronend/src/pages/desk/CharactersPage.tsx:9-144 | The draft starts as the default draft, with nothing edited and no files. |
| CharactersPage.CharacterSheetForm.UpdateDraft | fronend/src/pages/desk/CharactersPage.tsx:226-228 | Only the given key changes; the draft keeps the default keys. |
| CharactersPage.CharacterSheetForm.HandleSubmit | fronend/src/pages/desk/CharactersPage.tsx:230-268 | An update when editing, else a create, with the serialised form. Success resets draft, editing id, files and previews; failure keeps the draft and shows the message. |
| CharactersPage.CharacterSheetForm.Reset | fronend/src/pages/desk/CharactersPage.tsx:256-263 | Draft back to the defaults; editing id, files and previews cleared. |
| CharactersPage.CharacterSheetForm.HandleEdit | fronend/src/pages/desk/CharactersPage.tsx:270-284 | The draft is the merge over defaults with the class text from the class name. The character is marked edited and the previews show its images. |
| StorylinePage.FirstFailureOfPrefix | fronend/src/pages/desk/StorylinePage.tsx:33-40 | A failed outcome fetch among the first storylines is the failure the whole load reports. |
| StorylinePage.OutcomeEntriesAreOnePerStoryline | fronend/src/pages/desk/StorylinePage.tsx:33-40 | The outcome map has an entry exactly for each loaded storyline id, holding that storyline's fetched outcomes. |
| StorylinePage.NextOutcomeOrderFollowsCount | fronend/src/pages/desk/StorylinePage.tsx:92 | A new outcome's order is the storyline's outcome count plus one, so 1 when it has none. |
| StorylinePage.EditedOutcomeDrafts | fronend/src/pages/desk/StorylinePage.tsx:166-205 | The edited field shows the new text. The other fields keep what they showed, "" when missing. Other storylines' drafts are untouched. |
| StorylinePage.EditLeavesOtherFormsAlone | fronend/src/pages/desk/StorylinePage.tsx:166-205 | Typing into one storyline's outcome form changes nothing another form shows. |
| StorylinePage.OutcomeRefusedIffBlankTitle | fronend/src/pages/desk/StorylinePage.tsx:81-85 | An outcome is refused exactly when the title its form shows is blank after trimming, a missing draft included. |
| StorylinePage.StorylineBoard.constructor | fronend/src/pages/desk/StorylinePage.tsx:16-26 | Empty lists and maps, the initial draft, and the campaign given. |
| StorylinePage.StorylineBoard.Load | fronend/src/pages/desk/StorylinePage.tsx:28-45 | No campaign empties storylines and outcomes. Otherwise the loaded storylines, and either the map built from every outcome fetch or the first failure's message. |
| StorylinePage.StorylineBoard.EditDraft | fronend/src/pages/desk/StorylinePage.tsx:229-242 | Only the typed field changes; the order goes through `Number`. |
| StorylinePage.StorylineBoard.SubmitStoryline | fronend/src/pages/desk/StorylinePage.tsx:51-68 | Needs a campaign. The draft is sent with it. Success resets the draft with the order one past the storylines listed. |
| StorylinePage.StorylineBoard.EditOutcome | fronend/src/pages/desk/StorylinePage.tsx:166-205 | The outcome drafts become the edited drafts. |
| StorylinePage.StorylineBoard.SubmitOutcome | fronend/src/pages/desk/StorylinePage.tsx:80-103 | Refused for a blank title. Otherwise sent with the next order. Success resets only that storyline's draft; failure shows the message. |
| Api.SetHeader | fronend/src/services/api.ts:200 | The name reads the new value and every other name is unchanged. A new name goes last; an existing one keeps its place. |
| Api.SetHeaderKeepsNamesDistinct | fronend/src/services/api.ts:200 | Setting a header never duplicates a name. |
| Api.MergeLaterOverrides | fronend/src/services/api.ts:196-209 | After a merge, a name the caller set reads its last value; any other name keeps its old value. |
| Api.MergeKeepsNamesDistinct | fronend/src/services/api.ts:196-209 | Merging never duplicates a name. |
| Api.RequestHeadersContent | fronend/src/services/api.ts:192-213 | With a token, `Authorization` is `Bearer <token>` whatever the caller sent. Without one it is the caller's value, if any. `Content-Type` is the caller's value or JSON, and other names are the caller's. |
| Api.BuildHeaders | fronend/src/services/api.ts:192-213 | The loop builds exactly the request headers. |
| Common.JoinEmpty | fronend/src/services/api.ts:228-230 | A join with a non-empty separator is empty exactly when there are no parts or one empty part. |
| Api.ErrorMessage | fronend/src/services/api.ts:224-233 | Without JSON the message is the generic one. The message is empty only when the chain stops at a truthy list under `error` or `detail`. |
| Api.ErrorMessageFallsBack | fronend/src/services/api.ts:224-233 | With JSON, a truthy `error` is printed as the message, else a truthy `detail`, else the joined values. Only a falsy chain gives the generic message. When neither field is truthy, that happens exactly when the flattened values are none or a single empty one. |
| Api.ErrorMessageOfList | fronend/src/services/api.ts:225-232 | A list that ends the chain is printed as its items joined with commas and is never replaced by the generic message. The message is empty exactly when the list is empty or holds one empty string. |
| Api.EmptyErrorListGivesEmptyMessage | fronend/src/services/api.ts:225-232 | A failed JSON reply `{"error": []}` throws an error whose message is empty. |
| Api.ValueTextOfTruthy | fronend/src/services/api.ts:226-232 | A truthy value other than a list never prints as empty. |
| Api.Interpret | fronend/src/services/api.ts:220-239 | A failed response throws the error message of its JSON body, or the generic one without JSON; that message is empty only when the chain stops at a list. A successful one never throws: 204 gives nothing, a JSON body is returned as it is (`null` as `{}`), and a reply without JSON gives `{}`. |
| Api.Results | fronend/src/services/api.ts:287 | The page's results, or empty when the reply or its results are missing. |
| Api.ListOf | fronend/src/services/api.ts:285-288 | A thrown error becomes a failed fetch with its message; a 204 lists nothing; a body lists its page's results. |
| Api.ListOfResponse | fronend/src/services/api.ts:285-288 | A list call fails exactly when the response is not ok, carrying the body's error message. A 204 lists nothing, and a reply without JSON lists what the page reads from `{}`. |
| Api.ListEndpointFilters | fronend/src/services/api.ts:315 | The path gets `?name=<id>` exactly for a truthy id, and the id reads back from it. |
| Api.SessionAndNoteEndpoints | fronend/src/services/api.ts:341 | Sessions and notes are filtered exactly when given a truthy id. |
| Api.ApiService.Request | fronend/src/services/api.ts:185-240 | Sends the request headers built from the stored token and returns the interpreted reply. |
| Api.ApiService.StoreTokens | fronend/src/services/api.ts:249-267 | When the reply carries tokens, both are stored and the user is authenticated exactly when the access token is non-empty. Otherwise storage is unchanged. |
| Api.ApiService.Logout | fronend/src/services/api.ts:272-279 | Both tokens are removed and nothing else. The user is no longer authenticated. |

## Left out

- Whitespace is the six ASCII characters space, tab, line feed, carriage return, vertical tab and form feed. Python's `strip` also removes the separators `\x1c`-`\x1f` and Unicode spaces, and JavaScript's `trim` also removes Unicode spaces; neither extra set is modelled.
- Case is ASCII only: Python's `lower` and JavaScript's `toLowerCase` also handle Unicode letters.
- RegisterPage.UsernameRule: the length is counted in characters, while JavaScript's `.length` counts UTF-16 code units, so a name with characters outside the Basic Multilingual Plane is shorter in the model than in the browser.
- RegisterPage.PasswordRule: the length is counted in characters, while JavaScript's `.length` counts UTF-16 code units, so a password with characters outside the Basic Multilingual Plane is shorter in the model than in the browser.
- JavaScript numbers are modelled for integers. `Number(text)` covers optional whitespace around an optional sign and decimal digits; blank text is 0 and anything else is NaN. Fractions, exponents, hex and `Infinity` are not modelled.
- `fetch`, `localStorage`, `Promise.all` and async interleaving are not modelled: responses are handler parameters, and storage is a map field. The reloads a page triggers after a save are not modelled.
- Date and time-zone conversion of session dates is not modelled; the date is kept as entered, and the submit takes the current time as a parameter.
- User-facing messages are enumerations, not their text, except the server's message, which is carried as it is.
- Storyline and outcome deletes are not modelled; they are the same guard-then-call pattern as the dashboard deletes.
- A `Headers` instance passed by a caller is taken as already normalised: the lower-casing of names a browser does is not modelled.
- JSON error bodies are objects of strings, numbers, booleans, null and string lists. Nested objects, duplicate keys and parse errors are not modelled.
- A selection read as NaN is treated like null in the dashboard, whose ids are integers.
- The dashboard character form's free-text fields other than name, class and level are not modelled; they pass through unchanged.
- The multipart transport is not modelled: the request body is taken to be the serialised key/value list.
- Django's ORM, `get_or_create`, `validate_password`, authentication and JWT minting are not modelled; the class table is a map from name to id.
- JSX rendering, routing, timers and image previews are not modelled; previews are given values. The browser's own form checks are not modelled either: the storyline form's `required` title and `min={1}` order (`StorylinePage.tsx` lines 231 and 240) stop a submit before `SubmitStoryline` runs, and the model lets those drafts through to the handler.
- The dashboard's first load also fetches the user and the class list; neither is a field of the page state, and the classes are passed to the handlers that use them. The `loading` flag is not modelled.
- DashboardPage.Dashboard.SessionSubmit: after a create, the form is reset to the corrected next session number, one more than the sessions listed after the save; the page as written offers one more than the sessions listed before it (see "Findings").
- Api.Interpret: a failed reply whose JSON body is `null` makes the page's property access throw a `TypeError` with the browser's own message; the model gives the generic message there.

## Findings

| source | as written | input that shows it | evidently intended | confidence | as-written member | corrected member |
|---|---|---|---|---|---|---|
| fronend/src/pages/DashboardPage.tsx:242-246 | After a save, the next session number is `sessions.length + 1`, read from the list the handler was rendered with, before the new session was appended. | Sessions numbered 1 and 2; the form proposes 3; the user saves session 3. The form then proposes 3 again. | One more than the sessions listed after the save, so the form proposes 4. | not executed | DashboardPage.StaleNumberRepeatsCreated | DashboardPage.NextSessionNumber |
