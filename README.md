# Vykso backend — billing, video jobs and Shorts publishing, in Dafny

This project models the Python backend of Vykso, a service that sells video-generation
credits and generates short vertical videos. The model covers these parts:

- **Plan catalogue** (`Config`): twelve Stripe price ids come from the environment. Each
  configured id is mapped to the plan it sells. A plan has a stored name, and a credit
  table turns that name back into credits.
- **Checkout** (`Checkout`): three endpoints open Stripe Checkout sessions. One takes a
  price id, a legacy one takes a plan name, and one sells credit packs. A fourth endpoint
  lists the configured prices.
- **Profile store** (`SupabaseService`): the `profiles` table is a class field of type
  map. The class writes subscription updates through the input-key-to-column mapping,
  adds credits and logs them, and records payment-failure notifications.
- **Stripe webhook** (`Webhook`): the dispatcher and its five handlers. Each handler's
  decision is a pure *effect* function. The handler method applies that effect to the
  store.
- **Billing flow** (`BillingFlow`): lemmas that connect checkout to the webhook. The
  metadata a checkout writes is read back by the webhook as the same user, plan and credits.
- **Video API** (`VideoApi`, from `main.py`): prompt templates, the `generate` endpoint,
  the background Kie.ai submission, the Kie.ai callback and the status endpoint. All of
  these work over a backend object that holds the `users` and `video_jobs` tables.
- **Shorts text rules** (`ContentGenerator`): the `#Shorts` marker in titles,
  descriptions and tags, the default description and the pattern-based fallback title.
- **Veo request** (`VeoClient`): the payload `generate_video` posts, and how both calls
  read the response envelope.
- **Concatenation** (`VideoConcat`): clip file names and the ffmpeg concat list with its
  quoting. The round trip is proved: ffmpeg reads back exactly the paths that were written.

`Wrappers` holds `Option` and `Result`. `Text` models the Python string operations the
code relies on: `s[:n]` with negative bounds, ASCII `lower`/`upper`, `strip`,
substring tests, and `str`/`int` on integers with their round trip.

Outside inputs are parameters: the Stripe API's answers, the Kie.ai task id, the R2
upload result, random choices, and the current time as a pre-rendered string. A database
client that cannot be built is modelled as a constant `online` flag on the store. An
optional table that does not exist is modelled the same way.

Where the design notes of the system and the code disagree, the model follows the code:

- A video costs 1 credit. It is debited when the success callback arrives, not when the
  job is created.
- No refund follows a failure.
- Terminal job states are not protected against repeated callbacks.
  `VideoApi.RepeatedSuccessCallbackDebitsAgain` proves that a replayed success callback
  debits the user a second time.
- Plan names carry no `_pro` suffix. Professional plans are named `starter`, `pro` and
  `max`, with an optional `_annual`.

## Model

| member | source | states |
|---|---|---|
| Config.CreditTablesMergeLosesNothing | config/stripe_config.py:84-104 | The creator and professional credit tables share no plan name, so the merged table holds every entry of both with its own value |
| Config.GetCreditsForPlan | config/stripe_config.py:280-290 | Gives the table value for the twelve plan names and 0 for any other string; positive exactly for the known names |
| Config.PlanNameTable | config/stripe_config.py:292-320 | The stored plan name of each of the twelve catalogue plans (`creator_<tier>[_yearly]`, and `starter`/`pro`/`max` with an optional `_annual`) |
| Config.PlanNameGrantsPlanCredits | config/stripe_config.py:292-320 | The stored name of every catalogue plan is a known plan name that grants exactly that plan's credits |
| Config.CatalogueIntervals | config/stripe_config.py:111-235 | Creator plans bill monthly or yearly; professional plans bill monthly or annually |
| Config.PriceMappingShape | config/stripe_config.py:111-235 | The price mapping's keys are exactly the non-empty configured ids, and its values are catalogue plans |
| Config.StripeConfig.constructor | config/stripe_config.py:46-109 | The configuration keeps the environment it was built from, and its mapping is the fold of the twelve conditional inserts |
| Config.StripeConfig.BuildPriceMapping | config/stripe_config.py:111-235 | Starts empty, inserts the professional ids, then the creator ids; the result is the catalogue fold |
| Config.StripeConfig.AddProfessionalPrices | config/stripe_config.py:115-175 | Each of the six professional ids is inserted only when it is set, in source order |
| Config.StripeConfig.AddCreatorPrices | config/stripe_config.py:176-235 | Each of the six creator ids is inserted only when it is set, in source order |
| Config.StripeConfig.GetPlanType | config/stripe_config.py:237-248 | Gives a plan exactly for configured ids, and that plan is a catalogue plan with positive credits |
| Config.StripeConfig.IsValidPriceId | config/stripe_config.py:276-278 | True exactly when `get_plan_type` knows the id, so never for the empty string |
| Config.StripeConfig.AllValidPriceIds | config/stripe_config.py:250-252 | Is the set of configured ids and excludes the empty string |
| Config.StripeConfig.PriceMappingShapeAll | config/stripe_config.py:111-235 | The mapping's key set equals the set of configured ids |
| Config.StripeConfig.GetPlanNameFromPriceId | config/stripe_config.py:292-320 | None exactly for invalid ids; otherwise the stored name of the plan `get_plan_type` gives, which `get_credits_for_plan` maps back to that plan's credits |
| Config.InsertedLaterWriter | config/stripe_config.py:111-235 | After the inserts, a set id is a key, and its value was written by this insert or a later one with the same id |
| Config.StripeConfig.CreatorIdSellsCreatorPlan | config/stripe_config.py:176-235 | A set creator id sells a creator plan even when it repeats another id, because the creator inserts come last |
| Config.StripeConfig.ConfiguredIdSellsItsPlan | config/stripe_config.py:111-235 | When the twelve ids are distinct, each set variable sells the plan written next to it |
| Config.PlanTypeDict | config/stripe_config.py:335-364 | None exactly when `get_plan_type` is None; otherwise a field-by-field copy with the interval and family names |
| Checkout.CreateCheckoutSession | routes/checkout.py:65-115 | 400 exactly for an unknown price id. Otherwise both metadata maps hold the six keys, the stored plan name, and credits written with `str` that `int` reads back. The customer email is set only for a non-empty email |
| Checkout.LegacyPriceId | routes/checkout.py:159-174 | An unknown plan name selects no price |
| Checkout.CreateCheckoutLegacy | routes/checkout.py:149-203 | 400 exactly when the plan or user is missing or no price is configured for the choice. Otherwise the session sells a valid price of one of the six plans, with metadata `user_id`, `plan`, `tier_type`, `type` |
| Checkout.LegacyPriceIdIsCatalogued | routes/checkout.py:159-174 | The legacy plan/interval choice picks the catalogue entry for that plan and interval |
| Checkout.LegacyPlanNameRoundTrip | routes/checkout.py:159-203 | With distinct ids, the stored plan name is the requested plan (monthly) or the plan plus `_yearly`/`_annual` |
| Checkout.LegacyEntryName | routes/checkout.py:159-174 | The catalogue entry a legacy choice selects is named after the plan: the plan itself monthly, plus `_annual` for a professional plan or `_yearly` for a creator plan |
| Checkout.BuyCredits | routes/checkout.py:223-260 | 400 exactly for non-positive credits or amount, or a known pack at the wrong price. Otherwise the amount is in cents, the product name and description follow the credits, and the metadata credits parse back to the credits |
| Checkout.AdvertisedPacksAreAccepted | routes/checkout.py:224-236 | Each advertised pack is accepted exactly at its advertised price |
| Checkout.CreatorIdsConfigured | config/stripe_config.py:254-263 | Every non-empty creator price id listed is a configured id |
| Checkout.ProfessionalIdsConfigured | config/stripe_config.py:265-274 | Every non-empty professional price id listed is a configured id |
| Checkout.PriceListSound | routes/checkout.py:282-303 | Every listed entry comes from the id table, is a valid price, and carries that price's plan dictionary; the list is no longer than the table |
| Checkout.PriceListComplete | routes/checkout.py:282-303 | Every valid id of the table is listed with its key and plan |
| Checkout.CreatorListHoldsCreatorPlans | routes/checkout.py:281-291 | The creator list holds only creator-family plans, whether or not the ids are distinct |
| Checkout.ProfessionalListHoldsProfessionalPlans | routes/checkout.py:293-303 | With distinct ids, the professional list holds only professional-family plans |
| Checkout.GetAvailablePrices | routes/checkout.py:276-313 | The two loops build the price lists of the creator and professional id tables; the three packs are listed |
| SupabaseService.CollectKeys | services/supabase_service.py:97-99 | A column is written exactly when some mapping pair names it and its input key is present |
| SupabaseService.CollectValues | services/supabase_service.py:97-99 | Each written column holds the value of its input key |
| SupabaseService.FieldMappingColumns | services/supabase_service.py:83-95 | The mapping's columns are exactly the eleven writable columns |
| SupabaseService.Renamed | services/supabase_service.py:80-99 | A column is present exactly when it is writable and its input key is given, and it holds that input's value |
| SupabaseService.UnmappedKeysAreDropped | services/supabase_service.py:83-99 | Keys outside the mapping are never written; `status` is written as `subscription_status` |
| SupabaseService.BuildUpdateData | services/supabase_service.py:80-102 | The loop yields the renamed data plus `updated_at` |
| SupabaseService.UpdatedRow | services/supabase_service.py:104-105 | The updated row has the mapped values and `updated_at`; every other column keeps its value |
| SupabaseService.CreditedRow | services/supabase_service.py:141-148 | The balance becomes the old balance plus the credits; only `credits` and `updated_at` change |
| SupabaseService.CreditsAccumulate | services/supabase_service.py:141-148 | Two top-ups add up: the balance grows by their sum |
| SupabaseService.ProfilesAfterUpdate | services/supabase_service.py:104-117 | Only the addressed existing profile changes, and only when the client works |
| SupabaseService.SubscriptionOwner | services/supabase_service.py:209-213 | `.single()` finds a profile exactly when one profile carries the subscription id, and it is that profile |
| SupabaseService.CancelledRow | services/supabase_service.py:362-383 | Cancelling marks the row canceled with its timestamp; only an immediate cancel zeroes credits and sets the plan to `free` |
| SupabaseService.ReactivatedRow | services/supabase_service.py:390-408 | Reactivation sets the status active, the new plan and credits, and clears `canceled_at` |
| SupabaseService.ProfileStore.UpdateUserSubscription | services/supabase_service.py:55-117 | Succeeds exactly when the client works and the profile exists; the profiles become the update of that one row |
| SupabaseService.ProfileStore.LogCreditTransaction | services/supabase_service.py:165-189 | Appends one transaction when the table exists; a failure is swallowed |
| SupabaseService.ProfileStore.AddCreditsToUser | services/supabase_service.py:120-162 | Succeeds exactly for an existing profile with an integer balance. It credits that row alone and logs one `purchase` transaction; a failure writes nothing |
| SupabaseService.ProfileStore.GetUserByStripeSubscription | services/supabase_service.py:196-217 | Finds the one profile carrying the subscription id, or nothing (also when the client fails) |
| SupabaseService.ProfileStore.NotifyPaymentFailed | services/supabase_service.py:248-312 | Appends one unread `payment_failed` notification with the invoice URL when the table exists |
| SupabaseService.ProfileStore.CancelSubscription | services/supabase_service.py:362-387 | Is the profile update with the cancel data |
| SupabaseService.ProfileStore.ReactivateSubscription | services/supabase_service.py:390-412 | Is the profile update with the reactivation data |
| Webhook.UserIdFrom | routes/webhook.py:126-127 | `userId` when it is non-empty, else a non-empty `user_id`, else none |
| Webhook.KnownPlanFields | routes/webhook.py:154-165 | For a valid price, the stored plan name grants the plan's credits |
| Webhook.CheckoutPlanFields | routes/webhook.py:154-165 | A valid price gives its plan's fields; otherwise the metadata fallback is used, and a non-integer credits value fails |
| Webhook.CheckoutData | routes/webhook.py:178-192 | The ten fields a completed checkout writes, status `active` |
| Webhook.RetrievePrice | routes/webhook.py:150-151 | The first item's price id and period end of a known subscription with items; an error otherwise |
| Webhook.CheckoutEffect | routes/webhook.py:113-192 | No user: nothing. A credit purchase adds the metadata credits, and fails exactly when they are not an integer. No subscription: nothing. A subscription whose price is retrieved and whose plan fields resolve gives exactly the active update of the ten checkout fields for that user. It fails exactly when the retrieval fails or the fallback credits are not an integer |
| Webhook.ResolveUser | routes/webhook.py:206-217 | The metadata user wins; otherwise the single profile carrying the subscription |
| Webhook.SubscriptionUpdateData | routes/webhook.py:241-253 | The seven plan fields, plus credits only when the status is `active` |
| Webhook.SubscriptionUpdatedEffect | routes/webhook.py:195-255 | No user or an unknown price: nothing. A resolved user whose subscription has no items: an error, and no other case fails. A known price gives exactly the update of the resolved user's plan fields, with credits only when the status is `active` |
| Webhook.DeletedData | routes/webhook.py:286-294 | Canceled, zero credits, plan `free`, with the cancellation time |
| Webhook.SubscriptionDeletedEffect | routes/webhook.py:258-294 | Never fails; updates the resolved user with the deletion data, and does nothing without a user |
| Webhook.StoredPlanCredits | routes/webhook.py:322-329 | The credits of the profile's stored plan name; positive only for a known name |
| Webhook.InvoiceOwner | routes/webhook.py:308-321 | The one profile carrying the invoice's subscription, when there is a subscription and the client works |
| Webhook.PaymentSucceededEffect | routes/webhook.py:297-352 | Only a `subscription_cycle` invoice of a known owner recharges, and a recharge sets the balance to a positive value rather than adding. A known stored plan is recharged with its own credits without asking Stripe. An unknown stored plan falls back to the subscription's current price: its plan's credits, nothing for an unknown price, and the retrieval's error when it fails. An error comes only from that retrieval |
| Webhook.PaymentFailedEffect | routes/webhook.py:355-391 | Notifies exactly the invoice's owner, with the hosted invoice URL; never fails |
| Webhook.EventEffect | routes/webhook.py:81-110 | Unhandled types do nothing; credits are added only on checkout completion, notifications only on payment failure |
| Webhook.HandleCheckoutCompleted | routes/webhook.py:113-192 | Raises exactly the effect's error, and the store makes exactly the effect's step |
| Webhook.HandleSubscriptionUpdated | routes/webhook.py:195-255 | Raises exactly the effect's error, and the store makes exactly the effect's step |
| Webhook.HandleSubscriptionDeleted | routes/webhook.py:258-294 | The store makes exactly the effect's step |
| Webhook.HandlePaymentSucceeded | routes/webhook.py:297-352 | Raises exactly the effect's error, and the store makes exactly the effect's step |
| Webhook.HandlePaymentFailed | routes/webhook.py:355-391 | The store makes exactly the effect's step |
| Webhook.StripeWebhook | routes/webhook.py:69-110 | Always answers; the status is `error` exactly when the handler raised, with that error, and the store makes the event's step |
| BillingFlow.SubscriptionSessionRoundTrip | routes/webhook.py:113-192 | A session created by `create_checkout_session` and completed in Stripe makes the webhook write the same user, plan name and credits |
| BillingFlow.CreditPackSessionRoundTrip | routes/webhook.py:135-142 | A credit-pack session makes the webhook add exactly the purchased credits to the buyer |
| BillingFlow.CheckoutPlanIsRenewedAtSameCredits | routes/webhook.py:322-343 | The plan name a checkout stores makes a renewal recharge the same credits |
| BillingFlow.DeletedPlanRechargesNothing | routes/webhook.py:286-294 | After deletion the stored plan `free` grants no credits on renewal |
| VideoApi.GeneratePrompt | main.py:44-56 | Exactly the template of the lower-cased niche when there is one, else the default prompt quoting the niche as given |
| VideoApi.TemplatesShareSuffix | main.py:46-54 | Every template asks for a vertical ten-second clip |
| VideoApi.PromptShape | main.py:44-56 | Every prompt ends with the format suffix, and a default prompt contains the niche |
| VideoApi.PromptIgnoresCaseForTemplates | main.py:56 | Niches that differ only in ASCII case get the same template |
| VideoApi.FindTask | main.py:214-217 | The first job by id that carries the task id; none when no job does |
| VideoApi.FindTaskStable | main.py:251-258 | Rewriting a job without touching its task id does not change the lookup |
| VideoApi.Debit | main.py:275-278 | Only the job owner's balance changes, by one credit |
| VideoApi.Callback | main.py:192-301 | A failure marks the task's job failed with `failCode: failMsg` and never debits. A success without task id or result changes nothing. No video URL or an unknown job: that error answer, nothing written. A URL for a known job: completed with the uploaded URL and one credit debited from its owner; an upload or debit error marks it failed with that error instead, and nothing is debited. An unparsable result or an empty URL list marks the job failed with the raised message. Written jobs are terminal |
| VideoApi.RepeatedSuccessCallbackDebitsAgain | main.py:234-278 | Replaying a success callback completes the same job again and debits its owner again |
| VideoApi.VideoBackend.GenerateVideo | main.py:118-172 | Provisions a missing user with 10 credits. 402 exactly when the balance is below 1, with no job written. Otherwise a pending 10-second job with the niche's prompt, and no debit |
| VideoApi.VideoBackend.ProcessVideoGeneration | main.py:58-100 | Requests the niche's prompt for 10 seconds, without watermark above `basic`; the job goes generating, then waiting with the task id or failed with the error |
| VideoApi.VideoBackend.KieCallback | main.py:192-301 | Answers, writes the jobs and debits the users exactly as the callback function decides |
| VideoApi.VideoBackend.HandleSuccessReport | main.py:234-301 | For a success report with a task id and a result, answers, writes the jobs and debits the users exactly as the callback function decides |
| VideoApi.VideoBackend.GetVideoStatus | main.py:175-189 | The stored job when it exists, else 404 |
| ContentGenerator.AppendTag | utils/content_generator.py:146-154 | The text ends with the tag; it is kept whole when it fits, and cut with `...` to exactly the limit otherwise |
| ContentGenerator.EnsureShortsTagAsWritten | utils/content_generator.py:137-154 | A marked title is only cut to the limit; an unmarked title gets the tag; the result fits for limits of at least 11 |
| ContentGenerator.ShortsTagCutOff | utils/content_generator.py:143-144 | A title whose marker lies past the limit loses the marker |
| ContentGenerator.EnsureShortsTag | utils/content_generator.py:137-154 | For limits of at least 11 the title fits and carries the marker. A marked title that fits is unchanged; any other takes the append path |
| ContentGenerator.EnsureShortsInDescriptionAsWritten | utils/content_generator.py:184-198 | A marked description is only cut to the limit; an unmarked one gets the hashtag block |
| ContentGenerator.DescriptionMarkerCutOff | utils/content_generator.py:188-189 | A description whose marker lies past the limit loses the marker |
| ContentGenerator.EnsureShortsInDescription | utils/content_generator.py:184-198 | For limits of at least 29 the description fits and carries the marker |
| ContentGenerator.CorrectionOnlyTouchesMarkedTexts | utils/content_generator.py:137-198 | The corrected and as-written rules agree on every text that is unmarked or already fits |
| ContentGenerator.DefaultDescriptionMarked | utils/content_generator.py:170-182 | The default description carries the marker in its hashtag block |
| ContentGenerator.GenerateDescription | utils/content_generator.py:156-182 | A custom text gets the marker rule as written; it carries the marker unless it was marked and too long. Otherwise the default text is cut to the limit, and it carries the marker when it fits whole. The result fits for limits of at least 29 |
| ContentGenerator.GenerateDescriptionCorrected | utils/content_generator.py:156-198 | With the intended marker rule, a custom description fits and is marked for limits of at least 29. It agrees with the program except on a marked custom text that is too long |
| ContentGenerator.TagsFor | utils/content_generator.py:200-217 | An empty list gives the defaults; a custom list is kept and at most one tag is put in front |
| ContentGenerator.TagsForHasShortsAndIsIdempotent | utils/content_generator.py:200-217 | The result always has a Shorts tag, a list that has one is unchanged, and applying it twice equals once |
| ContentGenerator.GetDefaultTags | utils/content_generator.py:211-217 | The scan yields the tag list of the rule |
| ContentGenerator.CheckShortsTagPresent | utils/content_generator.py:219-243 | The title is never changed, the marker ends up in the title or description, and a marked pair is unchanged |
| ContentGenerator.CheckShortsTagPresentIdempotent | utils/content_generator.py:219-243 | A second check changes nothing |
| ContentGenerator.GenerateTitleFallback | utils/content_generator.py:113-135 | The chosen pattern over the stripped prompt's first 60 characters, then the marker rule as written. It fits for limits of at least 11, starts with the chosen emoji for limits of at least 12, and is marked unless the prompt brought a marker into a title that is too long |
| ContentGenerator.EnsureShortsTagAsWrittenKeepsFirst | utils/content_generator.py:137-154 | For limits of at least 12 the rule as written keeps the title's first character |
| ContentGenerator.GenerateTitleFallbackCorrected | utils/content_generator.py:113-154 | With the intended marker rule, the fallback title fits and is marked for limits of at least 11, and starts with the emoji for limits of at least 12. It agrees with the program except on a marked title that is too long |
| ContentGenerator.GenerateClickbaitTitle | utils/content_generator.py:49-70 | A non-empty AI title gets the marker rule as written, otherwise the fallback. It fits for limits of at least 11, and is marked unless the starting title was marked and too long |
| ContentGenerator.GenerateClickbaitTitleCorrected | utils/content_generator.py:49-70 | With the intended marker rule the title fits and is marked for limits of at least 11. It agrees with the program except on a marked starting title that is too long |
| VeoClient.GenerationTypeFor | veo_client.py:58-71 | A given type is kept; one image gives first-and-last frames, several give reference images, none gives no key |
| VeoClient.ClampSeed | veo_client.py:74-75 | The seed is clamped into [10000, 99999] and kept when already inside |
| VeoClient.BuildPayload | veo_client.py:49-78 | The prompt is cut to 5000 characters. Model, ratio and callback pass through; translation is on and fallback off. `imageUrls` is present exactly with images and holds the first three. The type follows the rule; a seed is written only when non-zero, clamped |
| VeoClient.ErrorMessage | veo_client.py:95 | The error text ends with the API's message |
| VeoClient.TaskIdOf | veo_client.py:92-95 | The task id exactly on code 200 with a `data` object that holds a task id. On code 200 without one, the `KeyError`/`TypeError` is a malformed-response error. Any other code is an API error carrying the message |
| VeoClient.TaskStatusOf | veo_client.py:110-113 | Succeeds exactly on code 200 with a `data` key, giving the object or `None` for a null `data`. A missing `data` key is a malformed-response error; any other code is an API error carrying the message |
| VideoConcat.ClipName | utils/video_concat.py:40 | `clip_` + zero-padded index + `.mp4` |
| VideoConcat.ClipNamesDistinct | utils/video_concat.py:40 | Different indices give different clip names |
| VideoConcat.ClipPathsDistinct | utils/video_concat.py:38-42 | Different clips get different download paths, so none overwrites another |
| VideoConcat.LineReadsBack | utils/video_concat.py:50-52 | A list-file line of a newline-free path is one newline-free directive that reads back as the path |
| VideoConcat.QuotedPathRoundTrip | utils/video_concat.py:50-52 | Under ffmpeg's quoting rules the quoted escaped path reads back as the path |
| VideoConcat.UnquoteEscaped | utils/video_concat.py:51 | Inside quotes, the escaped path reads back as the path, whatever follows |
| VideoConcat.FileListAppend | utils/video_concat.py:48-52 | Writing one more clip appends exactly its line |
| VideoConcat.FileListRoundTrip | utils/video_concat.py:48-52 | For newline-free paths, the list file reads back line by line as exactly the paths, in order |
| VideoConcat.ClipPaths | utils/video_concat.py:38-42 | One download path per URL, the i-th named after i |
| VideoConcat.WriteFileList | utils/video_concat.py:48-52 | The loop writes the list file of the paths, in order |
| VideoConcat.PrepareConcat | utils/video_concat.py:34-52 | The download paths, the list file's path and its contents |
| VideoConcat.FfmpegCommand | utils/video_concat.py:59-67 | The eleven-argument concat command with the list file and the output path in place |
| VideoConcat.ConcatOutcome | utils/video_concat.py:69-119 | Gives the output bytes exactly when ffmpeg completed and the output file is non-empty. A timeout or failure gives its error message |

## Left out

- The Stripe, Kie.ai, Veo, Gemini, R2 and YouTube network clients are left out. Their
  answers are parameters or maps: `stripe.Subscription.retrieve`, the Kie.ai task id,
  the upload result, the AI title.
- Webhook signature verification (`construct_event`) is left out. The model starts from
  a verified event.
- `log_webhook_event` is left out. It only writes an optional audit table, and its
  failure is swallowed.
- `get_user_by_stripe_customer` is left out. No handler in the core calls it.
- Floating-point values are left out: the plan prices, and the notification's message
  text that embeds `amount_due / 100`.
- Concurrency is left out. Each request runs to completion against the store, so the
  read-then-write races of `add_credits_to_user` are not modelled.
- Database errors that become HTTP 500 in `main.py` and `routes/checkout.py` are left out,
  and so are Stripe session-creation errors. Exception texts are kept only where the
  response carries them.
- Timestamps (`utcnow().isoformat()`, `fromtimestamp(...)`) are passed in already rendered.
- The `decrement_credits` stored procedure is not part of this model. It is modelled as
  subtracting one credit, with no floor; a raised error is a parameter.
- Row order of `select(...).eq(...)` is not modelled. `data[0]` is taken to be the job
  with the smallest id.
- URLs are not modelled: `FRONTEND_URL` and the success and cancel links.
- The order of the list `get_all_valid_price_ids` returns is not modelled.
  Config.StripeConfig.AllValidPriceIds returns it as a set.
- Case mapping and whitespace are ASCII only. `lower`, `upper` and `strip` act on ASCII
  letters and ASCII whitespace, and `int()` accepts only an optional sign followed by
  digits. Python also accepts surrounding whitespace and `_` separators.
- The scheduling helpers of `utils/content_generator.py` are left out. So are
  `_generate_title_with_ai`'s regex clean-up and `worker.py`.
- In `_generate_title_fallback` the keyword list is computed but never used, so it is
  not modelled.
- The handlers' log lines (`print`) are left out.
- Exception texts are approximations of Python's `str(e)`. The webhook's constants
  `No such subscription`, `list index out of range` and `invalid literal for int()`
  stand for Stripe's and Python's messages, which also quote the offending id or value,
  for example `invalid literal for int() with base 10: 'x'`. The same holds for the
  `list index out of range` a job gets from an empty URL list.

## Findings

| source | as written | input that shows it | evidently intended | confidence | as-written member | corrected member |
|---|---|---|---|---|---|---|
| utils/content_generator.py:143-144 | A title that already contains `#shorts` is cut to `max_length`, which can cut the marker off | title `best #shorts`, max_length 11 gives `best #short` | The docstring promises a title that ends up with `#Shorts` and fits: keep a marked title only when it fits, else append the tag | not executed | ContentGenerator.EnsureShortsTagAsWritten (ContentGenerator.ShortsTagCutOff; used by ContentGenerator.GenerateTitleFallback and ContentGenerator.GenerateClickbaitTitle) | ContentGenerator.EnsureShortsTag (used by ContentGenerator.GenerateTitleFallbackCorrected and ContentGenerator.GenerateClickbaitTitleCorrected) |
| utils/content_generator.py:188-189 | A description that already contains `#shorts` is cut to `max_length`, which can cut the marker off | description `best #shorts`, max_length 11 gives `best #short` | Keep a marked description only when it fits, else append the hashtag block | not executed | ContentGenerator.EnsureShortsInDescriptionAsWritten (ContentGenerator.DescriptionMarkerCutOff; used by ContentGenerator.GenerateDescription) | ContentGenerator.EnsureShortsInDescription (used by ContentGenerator.GenerateDescriptionCorrected) |
