# Car-rental app screens: a Dafny model

This project models the logic behind the screens of a React Native car-rental app.

- **Date helpers:** text dates of the form `YYYY-MM-DD`, adding days to them, ordering them, the calendar markings of a selected range, and 12-hour clock labels.
- **Date-range picker:** choosing a range by tapping days, and the pickup and drop-off time options.
- **Order summary:** time labels, the number of rental days, the price lines, and the payment method.
- **Search results:** the cars of the city that holds the search point, narrowed by vehicle type and by a city radius estimated from a reverse-geocoded place. Also the EV discount and the filter sheet that edits the search parameters.
- **Location picker:** classifying, de-duplicating and ranking geocoder results.
- **Card wallet:** input sanitising, validation, card type and issuer, number display, and the rule of a single default card.
- **One-time-code screen:** four digit boxes, automatic submission, the resend cooldown, and the masked phone number.
- **Profile editor:** the phone code and number split, per-country formats, the country list, and saving.
- **Sign-in screen:** the phone placeholder, the typing guard, the country sync, and the E.164 number sent.
- **Change-password screen:** guards, lookup and update.

## How the model is built

- Screen state held in React state becomes a Dafny `class`. Its event handlers and effects become methods that say what the new state is.
- Pure helpers become functions, with lemmas for the properties that matter:
  - round trips: date text and date, and saved phone and reloaded phone;
  - idempotence: time labels and input sanitisers;
  - orderings: ranking and sorting;
  - the invariant that at most one card is the default.
- Everything the screens get from outside enters as a parameter or a datatype:
  - backend and geocoder replies;
  - the phone-number library;
  - `localeCompare`;
  - `JSON.parse`;
  - `Number` on coordinates;
  - the distance between two points.

Modules:
- `Wrappers` and `Text` hold shared helpers;
- `DateUtils` models `utils/date.ts`;
- `DateRangePicker` models `components/DateRangePickerModal.tsx`;
- `OrderSummary`, `Search`, `Payment`, `VerifyOtp`, `Login` and `ChangePassword` model the screens of the same names;
- `LocationSearch` models `components/LocationSearch.tsx`;
- `Flags` holds the flag emoji shared by two screens;
- `ProfileEdit` models `app/profile/edit.tsx`.

## Model

| member | source | states |
|---|---|---|
| DateUtils.PrevNextInverse | utils/date.ts:19-23 | stepping a valid date one day forward and one back, in either order, gives the date back |
| DateUtils.NextDay | utils/date.ts:19-23 | the day after a valid date is a valid date |
| DateUtils.PrevDay | utils/date.ts:19-23 | the day before a valid date is a valid date |
| DateUtils.ShiftDays | utils/date.ts:19-23 | moving a valid date by any number of days gives a valid date |
| DateUtils.ShiftDaysAdd | utils/date.ts:19-23 | moving by `a` days then by `b` days is moving by `a + b` days |
| DateUtils.ShiftDaysInverse | utils/date.ts:19-23 | moving by `n` then by `-n` days gives the date back |
| DateUtils.ShiftDaysNumber | utils/date.ts:19-23 | moving by `n` days adds exactly `n` to the day number |
| DateUtils.NextDayNumber | utils/date.ts:21 | the next calendar day has the next day number, across month and year ends |
| DateUtils.FieldsBeforeNumber | utils/date.ts:25-27 | a date earlier by year, month and day has a smaller day number |
| DateUtils.DayNumberOrder | utils/date.ts:25-27 | day numbers order dates as year, then month, then day do; equal day numbers mean equal dates |
| DateUtils.Parse | utils/date.ts:3-4 | a text that reads as a date gives a real calendar day with a year from 0 to 9999; anything else is an Invalid Date |
| DateUtils.ParseToDateString | utils/date.ts:12-17 | a date with a four-digit year printed by `toDateString` reads back as the same date |
| DateUtils.ParseToDateStringOutside | utils/date.ts:12-17 | a year outside 1000..9999 is printed without zero padding, so its text does not read back |
| DateUtils.ParseInjective | utils/date.ts:12-17 | two texts that read as the same date are the same text |
| DateUtils.DateStringRoundTrip | utils/date.ts:12-17 | the date text of a four-digit-year date is the only text that reads as that date |
| DateUtils.ParseOfToDateString | utils/date.ts:12-17 | printing and reading back gives the date exactly when its year has four digits |
| DateUtils.DateStringChars | utils/date.ts:12-17 | the printed date is the four year digits, a dash, two month digits, a dash and two day digits |
| DateUtils.DateTextCanonical | utils/date.ts:12-17 | a valid date text prints back as itself |
| DateUtils.IsBeforeFields | utils/date.ts:25-27 | `isBefore` on two date texts is the order by year, month, then day |
| DateUtils.IsBeforeStrictTotal | utils/date.ts:25-27 | `isBefore` is irreflexive and transitive, and any two different date texts are ordered one way |
| DateUtils.AddDaysInverse | utils/date.ts:19-23 | adding `n` days and then `-n` days gives the date text back while the year stays four-digit |
| DateUtils.AddZeroDays | utils/date.ts:19-23 | adding no days gives a date text back unchanged |
| DateUtils.AddDaysAdd | utils/date.ts:19-23 | adding `a` days then `b` days is adding `a + b` days |
| DateUtils.AddDaysIsAfter | utils/date.ts:19-23 | adding a positive number of days gives a later date |
| DateUtils.AddDaysInvalid | utils/date.ts:19-23 | an unreadable date gives the text of an Invalid Date, which does not read as a date either |
| DateUtils.FormatDisplay | utils/date.ts:1-10 | the display is empty exactly when the text is missing, empty or not a date |
| DateUtils.FormatDisplayReorders | utils/date.ts:1-10 | a date text `YYYY-MM-DD` is shown as `DD/MM/YYYY` |
| DateUtils.To12HourFormat | utils/date.ts:54-59 | a label exists exactly when the text has a colon; without one the split leaves no minutes and the call throws |
| DateUtils.To12HourFormatOfTime | utils/date.ts:54-59 | `HH:MM` becomes the 12-hour clock hour, the two-digit minutes and AM before noon, PM from noon |
| DateUtils.Hours12ClockHour | utils/date.ts:56-57 | hour 0 shows as 12, hours 13 to 23 lose 12, and noon is PM |
| DateUtils.TimeTextFields | utils/date.ts:55 | splitting `HH:MM` at the colon gives the two fields |
| DateUtils.NumberOfPad2 | utils/date.ts:55-58 | a two-digit field reads as its value and pads back to the same text |
| DateUtils.Pad2Digits | utils/date.ts:55-58 | padding a number below 100 gives two digits that read back as that number |
| DateUtils.Pad2IsPadStart | utils/date.ts:14-15 | the two-digit month and day are `padStart(2, "0")` of the number |
| DateUtils.Ordered | utils/date.ts:43 | the two ends of a range, in some order |
| DateUtils.OrderedSymmetric | utils/date.ts:43 | the earlier end comes first whichever end was tapped first |
| DateUtils.AddOneDay | utils/date.ts:45-48 | stepping the cursor one day raises its day number by one |
| DateUtils.DayInSpan | utils/date.ts:45-49 | every day from the range start to its end reads as the start moved by that many days |
| DateUtils.DayTextIsAddDays | utils/date.ts:45-49 | stepping the cursor `k` times is adding `k` days |
| DateUtils.DayTextStep | utils/date.ts:45-49 | one more loop turn is one more day added |
| DateUtils.DayTextReadsBack | utils/date.ts:45-49 | the `k`-th cursor reads as the start plus `k` days |
| DateUtils.SpanLast | utils/date.ts:45-50 | stepping as many times as the range has days reaches its end exactly |
| DateUtils.CursorBeforeEnd | utils/date.ts:46 | the loop test holds exactly for the cursors before the end, so the loop stops at the end |
| DateUtils.DistinctDaysInSpan | utils/date.ts:45-49 | the loop visits a different day each time |
| DateUtils.DayFresh | utils/date.ts:45-49 | the day the cursor is on has not been marked before |
| DateUtils.MarkedPrefixStep | utils/date.ts:47 | marking a fresh in-between day keeps the start marking and adds one entry |
| DateUtils.MarkedPrefixLast | utils/date.ts:50 | marking the end as the range end adds one entry and keeps every day marked before |
| DateUtils.MarkInit | utils/date.ts:44-45 | the loop invariant holds after the start is marked |
| DateUtils.MarkStep | utils/date.ts:46-48 | one loop turn keeps the invariant and brings the cursor closer to the end |
| DateUtils.MarkExit | utils/date.ts:50 | marking the end after the loop gives a marking of every day of the range |
| DateUtils.BuildMarkedDates | utils/date.ts:29-52 | no start: no markings; no end or the same end: one day both starting and ending; a range: the earlier end starts, the later end ends, and each of the days in between is marked plain, one entry per day |
| DateRangePicker.Tap | components/DateRangePickerModal.tsx:65-80 | a tap starts a new selection unless only a start is set and the tap is not before it; otherwise it becomes the end, never before the start |
| DateRangePicker.TapKeepsOrder | components/DateRangePickerModal.tsx:65-80 | once a range is complete, its end is the start or after it |
| DateRangePicker.TwoTaps | components/DateRangePickerModal.tsx:65-80 | two taps pick that range, unless the second is earlier, which restarts from it |
| DateRangePicker.ThreeAscendingTaps | components/DateRangePickerModal.tsx:65-80 | a third tap after a complete range starts a new selection |
| DateRangePicker.HalfHourText | components/DateRangePickerModal.tsx:219-351 | the `i`-th half hour is its two-digit hour and `00` or `30` |
| DateRangePicker.TimeOptionsAreHalfHours | components/DateRangePickerModal.tsx:217-352 | the 49 options are the 48 half hours of the day in order, with 17:30 listed twice |
| DateRangePicker.EarlyMorningHalfHours | components/DateRangePickerModal.tsx:219-234 | the first section is 00:00 to 07:30 |
| DateRangePicker.MorningHalfHours | components/DateRangePickerModal.tsx:277-286 | the second section starts with 08:00 to 12:30 |
| DateRangePicker.AfternoonHalfHours | components/DateRangePickerModal.tsx:287-296 | and goes on with 13:00 to 17:30 |
| DateRangePicker.EveningHalfHours | components/DateRangePickerModal.tsx:339-351 | the third section is 17:30 to 23:30 |
| DateRangePicker.EveryHalfHourOffered | components/DateRangePickerModal.tsx:217-352 | every half hour of the day can be chosen |
| DateRangePicker.HalfHourLabel | components/DateRangePickerModal.tsx:262 | each option is labelled with its 12-hour time, AM for the first 24 half hours |
| DateRangePicker.Picker.constructor | components/DateRangePickerModal.tsx:31-48 | the temp range and times start from the props, defaulting to 10:00; the time picker is closed, in pickup mode |
| DateRangePicker.Picker.OnPropsChange | components/DateRangePickerModal.tsx:50-63 | while visible, all four temp values reset to the props; otherwise nothing changes |
| DateRangePicker.Picker.OnDayPress | components/DateRangePickerModal.tsx:65-80 | the selection moves as `Tap` says and the times are untouched |
| DateRangePicker.Picker.ClearDates | components/DateRangePickerModal.tsx:82-85 | both ends are cleared and the times kept |
| DateRangePicker.Picker.ApplyDates | components/DateRangePickerModal.tsx:87-91 | the range and the times are confirmed exactly when both ends are set, which is exactly when the confirm button is enabled |
| DateRangePicker.TapEnablesConfirm | components/DateRangePickerModal.tsx:176 | after a tap the confirm button is enabled exactly when the tap completed a range (a start set, no end, the day not before the start), and the range is then that start and the tapped day |
| DateRangePicker.Picker.OnOpenTimePicker | components/DateRangePickerModal.tsx:93-96 | the time picker opens for the given field, nothing else changes |
| DateRangePicker.Picker.CloseTimePicker | components/DateRangePickerModal.tsx:195-203 | the time picker closes, nothing else changes |
| DateRangePicker.Picker.ChooseTime | components/DateRangePickerModal.tsx:236-254 | only the field being chosen takes the time, which is then the highlighted option; the picker closes |
| OrderSummary.NormalizeMeridiem | app/order-summary.tsx:70-75 | a trailing am/pm in any case becomes one space and upper case; text without one is unchanged |
| OrderSummary.MatchClock | app/order-summary.tsx:78 | a match is one or two hour digits, optionally a colon and two minute digits, and nothing else |
| OrderSummary.FormatTime | app/order-summary.tsx:66-67 | empty text gives an empty label |
| OrderSummary.FormatClock | app/order-summary.tsx:78-82 | text that is not a clock time is shown as it is, and so is a clock time whose hour is above 23 |
| OrderSummary.NoMeridiemInClockText | app/order-summary.tsx:70 | text of digits and colons has no am/pm word |
| OrderSummary.FormatTimeOfClockText | app/order-summary.tsx:78-85 | `H:MM` or `HH:MM` with an hour up to 23 gets the 12-hour label |
| OrderSummary.ClockTextPlain | app/order-summary.tsx:66-78 | `H:MM` text is non-empty, trimmed and has no am/pm word, so it reaches the clock branch |
| OrderSummary.MatchClockOfTime | app/order-summary.tsx:78 | the clock pattern splits `HH:MM` into its hour and minutes |
| OrderSummary.FormatTimeAgreesWithTo12Hour | app/order-summary.tsx:80-85 | on the picker's `HH:MM` times the summary label is the calendar's `to12HourFormat` label |
| OrderSummary.FormatTimeOfHour | app/order-summary.tsx:81 | a bare hour gets minutes 00 |
| OrderSummary.FormatOfTrimmed | app/order-summary.tsx:66-68 | a trimmed non-empty text goes straight to the am/pm and clock branches |
| OrderSummary.SuffixIsMeridiemWord | app/order-summary.tsx:70 | text ending in a space and AM or PM has an am/pm word |
| OrderSummary.NormalizeNormalized | app/order-summary.tsx:71-74 | normalising text that already ends in " AM" or " PM" changes nothing |
| OrderSummary.NormalizedShape | app/order-summary.tsx:71-74 | normalising gives the trimmed text before the suffix, a space and AM or PM |
| OrderSummary.NormalizedPrefixTrimmed | app/order-summary.tsx:71-74 | the text before a normalised suffix is itself trimmed |
| OrderSummary.FormatSuffixed | app/order-summary.tsx:66-75 | a trimmed label ending in " AM" or " PM" is shown as it is |
| OrderSummary.FormatBareSuffix | app/order-summary.tsx:66-75 | a lone " AM" is shown as it is |
| OrderSummary.FormatMeridiemStable | app/order-summary.tsx:66-75 | formatting text with an am/pm word twice equals formatting it once |
| OrderSummary.FormatClockStable | app/order-summary.tsx:76-85 | formatting other text twice equals formatting it once |
| OrderSummary.ClockLabelStable | app/order-summary.tsx:83-85 | a 12-hour label is shown unchanged |
| OrderSummary.FormatTimeIdempotent | app/order-summary.tsx:66-86 | `formatTime` is idempotent on every text |
| OrderSummary.FallbackDays | app/order-summary.tsx:93 | no day count passed means 1 day |
| OrderSummary.RentalDays | app/order-summary.tsx:88-102 | two readable dates give a whole count of at least 1; otherwise the passed count, or 1 |
| OrderSummary.RentalDaysOfRange | app/order-summary.tsx:94-98 | a range `n >= 1` days long is `n` rental days |
| OrderSummary.RentalDaysAtLeastOne | app/order-summary.tsx:94-97 | the same day, or an end before the start, counts as one day |
| OrderSummary.RentalDaysFallback | app/order-summary.tsx:92-93 | an unreadable start date with no passed count gives 1 |
| OrderSummary.Addons | app/order-summary.tsx:104-110 | no parameter gives no add-ons; a parameter that parses to an array gives that array |
| OrderSummary.Times | app/order-summary.tsx:269 | a product is a number exactly when both factors are |
| OrderSummary.LinesOfRange | app/order-summary.tsx:253-304 | for a range `n` days long, the price line and each add-on line are the daily price times `n` |
| OrderSummary.BaseLineWithoutPrice | app/order-summary.tsx:269 | without a daily price the price line is 0 |
| OrderSummary.OrderPayment.constructor | app/order-summary.tsx:38-39 | unpaid, no method, label "Not paid yet" |
| OrderSummary.OrderPayment.PaymentMethodLabel | app/order-summary.tsx:112-118 | "Not paid yet" until paid |
| OrderSummary.OrderPayment.HandlePay | app/order-summary.tsx:120-123 | the order is paid with the method, and the label names that method |
| Search.CityCars | app/search.tsx:288-305 | coordinates in the New York box give its cars, otherwise in the London box London's cars, otherwise none |
| Search.Filter | app/search.tsx:319-321 | the kept elements all satisfy the test, come from the input, and every input element that satisfies it is kept |
| Search.FilterAppend | app/search.tsx:319-321 | filtering keeps the input order |
| Search.TypeFilter | app/search.tsx:308-312 | no vehicle type keeps every car |
| Search.TypeFilterExact | app/search.tsx:308-312 | with a type, a car is kept exactly when its type matches case-insensitively |
| Search.WithinRadius | app/search.tsx:314-321 | every result lies within the radius, and there are no more results than cars |
| Search.WithinRadiusExact | app/search.tsx:314-336 | each car within the radius gives a result, and each result comes from one of the cars |
| Search.GetCityBoundaries | app/search.tsx:348-396 | a failed lookup gives "Unknown City" with radius 25; otherwise the place's name and country, the search point, and a radius of 25 for an unnamed place or 40, 20, 10 or 25 scaled by the country factor; the radius is always between 10 and 60 |
| Search.UnnamedPlaceRadius | app/search.tsx:368-384 | a place without a city, town or municipality keeps the default radius 25 |
| Search.RadiusExtremes | app/search.tsx:368-384 | a US city gets the largest radius, 60, and a village elsewhere the smallest, 10 |
| Search.DisplayPrice | app/search.tsx:519 | the shown price never exceeds the daily price |
| Search.EvPriceNearest | app/search.tsx:519 | the EV price is 88% of the price rounded to the nearest whole number, never more than the price |
| Search.EvPriceUnique | app/search.tsx:519 | that rounding has exactly one answer |
| Search.OrNull | app/search.tsx:46-55 | an empty parameter counts as missing |
| Search.OpenDraft | app/search.tsx:419-434 | the sheet has a pickup exactly when both coordinates are given, placed at those coordinates and labelled with the pickup location; its times are never empty |
| Search.ApplyParams | app/search.tsx:608-620 | every parameter is set: the draft dates and vehicle, or "" when missing; the draft times; the pickup label when there is one, else the current place or ""; and both coordinates printed from the draft pickup when there is one, otherwise the current coordinates or "" |
| Search.OpenAfterApply | app/search.tsx:608-620 | applying a draft and reopening the sheet gives back its vehicle, dates, times and pickup place, when the pickup's own coordinates print as non-empty text that reads back as the same number |
| Search.SearchScreen.constructor | app/search.tsx:42-62 | loading, no results, no city, sheets closed, draft from the parameters without a pickup |
| Search.SearchScreen.FetchCarRentals | app/search.tsx:101-346 | the city data follows the geocoder reply: "Unknown City" and 25 km on failure, otherwise the place's name, country and the search point, with its kind's radius times its country's factor; the results are the city's cars of the chosen type within that radius, which is at most 60; loading ends |
| Search.SearchScreen.OnSearchParams | app/search.tsx:75-79 | cars are fetched only when both coordinates are given |
| Search.SearchScreen.OpenFilters | app/search.tsx:419-434 | the sheet opens with the draft the parameters give |
| Search.SearchScreen.ApplyFilters | app/search.tsx:606-620 | the new parameters come from the draft and the sheet closes |
| Search.SearchScreen.CloseFilters | app/search.tsx:602 | the sheet closes and the draft is kept |
| Search.SearchScreen.OnDraftPickup | app/search.tsx:577 | the chosen place becomes the draft pickup |
| Search.SearchScreen.OnDraftVehicle | app/search.tsx:596 | the chosen type becomes the draft vehicle |
| Search.SearchScreen.OpenCalendar | app/search.tsx:584 | the calendar opens and the draft is kept |
| Search.SearchScreen.CloseCalendar | app/search.tsx:636 | the calendar closes and the draft is kept |
| Search.SearchScreen.OnCalendarConfirm | app/search.tsx:637-643 | the draft takes the chosen dates and times and the calendar closes |
| LocationSearch.KindOf | components/LocationSearch.tsx:29-55 | the kind of a result, never "address" |
| LocationSearch.SupportedIffClassified | components/LocationSearch.tsx:120-133 | the result filter keeps exactly the results that get a kind |
| LocationSearch.PlaceLabel | components/LocationSearch.tsx:66 | "city, country", or whichever of the two is present, or empty when neither is |
| LocationSearch.LabelOf | components/LocationSearch.tsx:57-70 | a label is never empty, and it is the place label whenever that is non-empty |
| LocationSearch.MapSuggestion | components/LocationSearch.tsx:29-75 | a suggestion exactly for a classified result, with its kind and non-empty label, and an id of its place id or its position |
| LocationSearch.Somes | components/LocationSearch.tsx:137 | `.filter(Boolean)` keeps only present suggestions, each taken from the list, never more than it holds |
| LocationSearch.SomesAll | components/LocationSearch.tsx:137 | when every entry is present, the filter drops nothing and keeps the order |
| LocationSearch.MapAll | components/LocationSearch.tsx:135-137 | the mapped suggestions are never addresses and never unlabelled; none is lost when every result is supported, and then the `i`-th suggestion is the mapping of the `i`-th result with index `i` |
| LocationSearch.Put | components/LocationSearch.tsx:116 | a map insertion keeps keys unique, keeps a known key in place or appends a new one, and stores the item under its key |
| LocationSearch.FindKey | components/LocationSearch.tsx:116 | a key is found exactly when it is present, at its position |
| LocationSearch.Dedupe | components/LocationSearch.tsx:114-117 | the de-duplicated results have unique keys and are no more than the input |
| LocationSearch.DedupeCovers | components/LocationSearch.tsx:114-117 | every key of the input is kept |
| LocationSearch.DedupeLast | components/LocationSearch.tsx:115-117 | each key keeps its last result, as `new Map` does |
| LocationSearch.Supported | components/LocationSearch.tsx:120-133 | only supported results, all from the input |
| LocationSearch.Candidates | components/LocationSearch.tsx:114-137 | the `i`-th suggestion is the mapping of the `i`-th supported result among the de-duplicated results of both lookups, with index `i`; no more suggestions than results |
| LocationSearch.Tier | components/LocationSearch.tsx:144-149 | a label starting with the query ranks first, one containing it second, others last |
| LocationSearch.CompareIsRank | components/LocationSearch.tsx:141-151 | the comparator orders by tier, then by label length, and is antisymmetric |
| LocationSearch.InsertAt | components/LocationSearch.tsx:141 | one insertion step extends the sorted prefix and keeps the same elements |
| LocationSearch.SortByKey | components/LocationSearch.tsx:141 | the array ends sorted by the key with the same elements |
| LocationSearch.Rank | components/LocationSearch.tsx:139-151 | the suggestions are ranked and are a permutation of the candidates |
| LocationSearch.LocationPicker.constructor | components/LocationSearch.tsx:22-26 | empty query, no suggestions, closed, nothing selected |
| LocationSearch.LocationPicker.OnQueryEffect | components/LocationSearch.tsx:77-163 | closed: no change; a short query: no suggestions; a failed lookup: none; otherwise the candidates, ranked against the lower-cased trimmed query |
| LocationSearch.LocationPicker.SetQuery | components/LocationSearch.tsx:252 | the query becomes the typed text |
| LocationSearch.LocationPicker.Open | components/LocationSearch.tsx:219 | the picker opens |
| LocationSearch.LocationPicker.Close | components/LocationSearch.tsx:233-237 | the picker closes, nothing else changes |
| LocationSearch.LocationPicker.SeedInitial | components/LocationSearch.tsx:166-171 | a given initial place becomes the selection and the query |
| LocationSearch.LocationPicker.HandleSelect | components/LocationSearch.tsx:173-178 | the place is selected, shown and passed on, and the picker closes |
| Payment.CardNumberInput | app/payment.tsx:590 | the number field holds at most 16 characters, none of them white space |
| Payment.ExpiryInput | app/payment.tsx:623 | an expiry field holds at most two digits |
| Payment.CvvInput | app/payment.tsx:659 | the CVV holds at most four digits |
| Payment.SanitisersIdempotent | app/payment.tsx:587-661 | sanitising sanitised text changes nothing |
| Payment.ValidateCard | app/payment.tsx:333-351 | a card passes exactly when the number has 16 characters, the name and both expiry fields are set and the CVV has at least 3; the first failing check's message is shown |
| Payment.CardTypeOf | app/payment.tsx:356-362 | Visa exactly for a leading 4, Mastercard for 5, Amex for 3, Discover otherwise |
| Payment.DetectBankIssuer | app/payment.tsx:129-258 | the issuer is one of the five demo banks or a network name |
| Payment.DemoRange | app/payment.tsx:234-235 | the first four characters read as 4000 to 4999 exactly when they are four digits starting with 4 |
| Payment.BinsStart | app/payment.tsx:134-147 | every listed BIN starts with 4000 |
| Payment.BinTablesRedundant | app/payment.tsx:133-221 | the BIN tables change nothing: the first-four rule gives the same bank |
| Payment.IssuerValues | app/payment.tsx:234-258 | four digits starting with 4 give the demo bank at their value modulo 5; any other leading 4 gives "Visa"; 5, 3 and 6 give Mastercard, American Express and Discover; an empty number or another leading character gives "Credit Card" |
| Payment.IssuerMatchesType | app/payment.tsx:129-258 | the issuer agrees with the card type: Amex numbers are American Express, 6 is Discover, 5 is Mastercard, 4 a demo bank or Visa |
| Payment.Chunks | app/payment.tsx:321 | groups of four, the last one shorter, that join back to the text |
| Payment.ChunksOf | app/payment.tsx:321 | the `i`-th character of group `k` is character `4k + i` |
| Payment.FormatCardNumberSpec | app/payment.tsx:319-323 | grouping keeps the characters, splits into groups of four, and is idempotent |
| Payment.Flatten | app/payment.tsx:329 | repeating a unit `n` times gives `n` times its length |
| Payment.FlattenBlock | app/payment.tsx:329 | each of the `n` blocks of the repetition is the unit |
| Payment.MaskCardNumberAsWritten | app/payment.tsx:325-331 | the mask as written: fewer than four non-space characters are shown as typed; otherwise the three characters "â€¢" once per hidden character, a space and the last four |
| Payment.MaskCardNumber | app/payment.tsx:325-331 | the mask as intended (see Findings): a number of at least four non-space characters shows one bullet per hidden character, a space and its last four; a shorter one is shown as it is |
| Payment.MaskGarbled | app/payment.tsx:329 | the mask as written is nearly three times longer and starts with "â", not with a bullet |
| Payment.DefaultCount | app/payment.tsx:366 | the number of default cards is at most the number of cards |
| Payment.WithoutId | app/payment.tsx:397 | the remaining cards come from the list and none has the removed id |
| Payment.AfterRemove | app/payment.tsx:397-404 | removal leaves the other cards, none with the removed id |
| Payment.AfterSetDefault | app/payment.tsx:413-416 | the chosen card is the default and every other card is not |
| Payment.WithoutIdCount | app/payment.tsx:397-401 | removal drops one default exactly when the removed card was the default, and keeps ids unique |
| Payment.NotFoundNoDefault | app/payment.tsx:397-401 | removing an unknown id changes nothing |
| Payment.SetFirstDefault | app/payment.tsx:403 | making the first card default in a list without one gives exactly one default |
| Payment.RemoveKeepsOneDefault | app/payment.tsx:390-409 | removal keeps the wallet well formed: unique ids and exactly one default while there are cards |
| Payment.SetDefaultCount | app/payment.tsx:412-419 | choosing a known card gives one default; an unknown id leaves none |
| Payment.CardOf | app/payment.tsx:364-374 | a new card carries the type and the issuer of its number |
| Payment.AddKeepsOneDefault | app/payment.tsx:353-388 | adding a card with a new id keeps the wallet well formed |
| Payment.CardWallet.constructor | app/payment.tsx:40-49 | no cards, sheet closed, a blank form |
| Payment.CardWallet.LoadCards | app/payment.tsx:55-64 | a stored list replaces the cards; nothing stored leaves them |
| Payment.CardWallet.OpenAddCard | app/payment.tsx:548 | the sheet opens |
| Payment.CardWallet.CloseAddCard | app/payment.tsx:560-565 | the sheet closes and the form is kept |
| Payment.CardWallet.OnCardNumberText | app/payment.tsx:587-592 | the number field takes the sanitised text |
| Payment.CardWallet.OnCardholderText | app/payment.tsx:605-607 | the name field takes the text as typed |
| Payment.CardWallet.OnExpiryMonthText | app/payment.tsx:620-625 | the month field takes the sanitised text |
| Payment.CardWallet.OnExpiryYearText | app/payment.tsx:637-642 | the year field takes the sanitised text |
| Payment.CardWallet.OnCvvText | app/payment.tsx:656-661 | the CVV field takes the sanitised text |
| Payment.CardWallet.AddCard | app/payment.tsx:353-388 | a failing check leaves everything; otherwise the card is appended, default only when it is the first, the form is reset and the sheet closes, and the wallet stays well formed |
| Payment.CardWallet.RemoveCard | app/payment.tsx:390-410 | the card is gone and the wallet stays well formed |
| Payment.CardWallet.SetDefaultCard | app/payment.tsx:412-419 | exactly the chosen card is the default |
| VerifyOtp.ConcatSlots | app/verify-otp.tsx:41 | the joined boxes are digits, and are as many as the boxes exactly when none is empty |
| VerifyOtp.CodeComplete | app/verify-otp.tsx:41-42 | the code has four characters exactly when all four boxes are filled |
| VerifyOtp.AfterChange | app/verify-otp.tsx:98-120 | a paste of four or more digits fills all boxes; otherwise only the edited box changes, to the last digit typed or empty |
| VerifyOtp.AfterKeyPress | app/verify-otp.tsx:122-135 | Backspace empties the box, or the previous one when it is already empty; other keys change nothing |
| VerifyOtp.SubmitNeedsAllBoxes | app/verify-otp.tsx:40-45 | a submission only happens with all four boxes filled |
| VerifyOtp.OtpScreen.constructor | app/verify-otp.tsx:25-31 | four empty boxes, nothing submitted, no cooldown |
| VerifyOtp.OtpScreen.HandleChange | app/verify-otp.tsx:98-120 | the boxes change as `AfterChange` says and the error mark clears |
| VerifyOtp.OtpScreen.HandleKeyPress | app/verify-otp.tsx:122-135 | the boxes change as `AfterKeyPress` says |
| VerifyOtp.OtpScreen.AutoSubmit | app/verify-otp.tsx:40-49 | the code is submitted exactly when all boxes are filled, nothing is being verified and that code was not the last one submitted |
| VerifyOtp.OtpScreen.OnVerified | app/verify-otp.tsx:50-86 | a rejected code is marked invalid; verification ends either way |
| VerifyOtp.OtpScreen.Tick | app/verify-otp.tsx:92-96 | the cooldown counts down to zero and no further |
| VerifyOtp.OtpScreen.Resend | app/verify-otp.tsx:202-209 | a code is requested only when no cooldown runs, and a request that returns without throwing restarts it at 30, even when it only alerted about a rejected send or a missing phone |
| VerifyOtp.CountryCode | app/verify-otp.tsx:256 | up to four digits that follow the plus sign |
| VerifyOtp.MaskRest | app/verify-otp.tsx:258 | what follows the prefix is part of the number |
| VerifyOtp.MaskedCount | app/verify-otp.tsx:261-264 | between 3 and 6 bullets, exactly the hidden count when that is in range |
| VerifyOtp.MaskPhone | app/verify-otp.tsx:249-250 | no number gives an empty mask |
| VerifyOtp.MaskPhoneShape | app/verify-otp.tsx:249-266 | the mask is the prefix, the bullets and, when there is one, a space and the last four characters |
| VerifyOtp.TrimMasked | app/verify-otp.tsx:265 | trimming removes only the space left by an empty tail |
| VerifyOtp.MaskPhoneHidesMiddle | app/verify-otp.tsx:249-266 | between the prefix and the last four characters the mask shows no digit, and at least three bullets |
| Flags.RegionalIndicator | app/login.tsx:32 | a capital letter maps into the regional indicator symbols |
| Flags.EmojiFlag | app/login.tsx:27-34 | the flag is empty exactly when the code is missing or empty |
| Flags.FlagOfLetters | app/login.tsx:27-34 | a code of letters gets one regional indicator per letter, in order, whatever its case |
| Flags.SaudiFlagOfCode | app/login.tsx:22-23 | the default flag is the flag of "SA" |
| Flags.FlagInjective | app/profile/edit.tsx:105-113 | codes with the same flag are the same once upper-cased |
| ProfileEdit.PhoneFormat | app/profile/edit.tsx:57 | a listed code gets its format, any other the ten-digit default |
| ProfileEdit.HintsFitLengths | app/profile/edit.tsx:28-57 | every hint is as long as its maximum, which is 8 to 11 |
| ProfileEdit.ExampleFor | app/profile/edit.tsx:58 | an example exists only for a selected country listed with a non-empty example |
| ProfileEdit.ExampleFormatSpec | app/profile/edit.tsx:58-62 | with an example, the maximum is its digit count and the hint is its first three digits; otherwise the table format |
| ProfileEdit.ParseStoredSound | app/profile/edit.tsx:86 | a successful parse splits the stored text into its code and its number |
| ProfileEdit.ParseStoredExact | app/profile/edit.tsx:86 | the parse gives a code and number exactly when they split the text as the pattern says |
| ProfileEdit.SaveReloadRoundTrip | app/profile/edit.tsx:86 | a dial code and digits, saved with a space between, reload as the same code and number |
| ProfileEdit.ReloadAsWrittenMovesDigits | app/profile/edit.tsx:162 | saved without a separator, a code shorter than five characters reloads longer, taking digits of the number |
| ProfileEdit.ReloadAsWrittenExample | app/profile/edit.tsx:162 | "+966" and "512345678" reload as "+9665" and "12345678" |
| ProfileEdit.ReloadAsWrittenFullCode | app/profile/edit.tsx:162 | saved without a separator, a code of a plus and four digits reloads unchanged, with the number |
| ProfileEdit.MapCountry | app/profile/edit.tsx:115-121 | an entry gives a country exactly when it has a name and a dial code |
| ProfileEdit.Kept | app/profile/edit.tsx:114-123 | no more countries than entries |
| ProfileEdit.KeptExact | app/profile/edit.tsx:114-123 | a country is listed exactly when some entry maps to it and it is not the excluded one |
| ProfileEdit.InsertByName | app/profile/edit.tsx:124 | inserting keeps the list sorted by name and adds exactly that country |
| ProfileEdit.SortByName | app/profile/edit.tsx:124 | the sorted list is ordered by the comparator and has the same countries |
| ProfileEdit.CountryList | app/profile/edit.tsx:114-127 | the country list is sorted by name |
| ProfileEdit.CountryListExact | app/profile/edit.tsx:114-127 | a failed fetch lists only Saudi Arabia; otherwise exactly the allowed countries of the reply, each with a name and a code |
| ProfileEdit.Visible | app/profile/edit.tsx:244-246 | the search shows no more countries than there are |
| ProfileEdit.VisibleExact | app/profile/edit.tsx:244-246 | a country is shown exactly when its lower-cased name contains the lower-cased search or its code contains the search |
| ProfileEdit.EmptySearchShowsAll | app/profile/edit.tsx:244-246 | an empty search shows every country in order |
| ProfileEdit.FirstWithCode | app/profile/edit.tsx:152 | the first country in the list with the code (no earlier country has it), or none exactly when no country has it |
| ProfileEdit.Reloaded | app/profile/edit.tsx:85-92 | a matching stored phone gives its code and number; otherwise the code is kept and the whole text is the number |
| ProfileEdit.ProfileEditor.constructor | app/profile/edit.tsx:13-25 | loading, empty fields, code +966 with the Saudi flag, nothing loaded |
| ProfileEdit.ProfileEditor.Load | app/profile/edit.tsx:71-97 | a signed-in customer's row fills the name, e-mail and split phone; loading ends |
| ProfileEdit.ProfileEditor.OnCodeChanged | app/profile/edit.tsx:64-69 | a changed code cuts the number to a prefix that fits the code's maximum, leaving a fitting number alone |
| ProfileEdit.ProfileEditor.OnPhoneText | app/profile/edit.tsx:210 | the number keeps only the digits typed |
| ProfileEdit.ProfileEditor.LoadCodes | app/profile/edit.tsx:99-133 | the list becomes the sorted country list of the reply, and loading ends |
| ProfileEdit.ProfileEditor.LoadExamples | app/profile/edit.tsx:136-147 | the examples become the fetched map, or an empty one |
| ProfileEdit.ProfileEditor.SyncSelectedIso2 | app/profile/edit.tsx:150-154 | with countries loaded, the selected country is that of the first country with the current code, or none |
| ProfileEdit.ProfileEditor.ToggleCodeList | app/profile/edit.tsx:201 | the dropdown opens or closes |
| ProfileEdit.ProfileEditor.CloseCodeList | app/profile/edit.tsx:232 | the dropdown closes |
| ProfileEdit.ProfileEditor.OnCodeSearch | app/profile/edit.tsx:240 | the search takes the text |
| ProfileEdit.ProfileEditor.SelectCountry | app/profile/edit.tsx:250-255 | the shown country's code and flag are taken, and the dropdown closes with the search cleared |
| ProfileEdit.ProfileEditor.OnSave | app/profile/edit.tsx:156-169 | signed out: nothing saved; signed in: the name, e-mail and the code and number run together are sent; that phone reloads as the same code and number for a four-digit code, and with a different, longer code for a shorter one |
| Login.Keep | app/login.tsx:42 | one or two digits are shown, never more than the example has |
| Login.MaskFrom | app/login.tsx:44-50 | masking keeps the length |
| Login.MaskDigits | app/login.tsx:42-50 | the digit-replacing pass is the mask |
| Login.ComputePlaceholder | app/login.tsx:36-56 | the placeholder is the masked example, upper-cased and without white space, or "Phone number" |
| Login.MaskPointwise | app/login.tsx:44-50 | a digit past the kept ones becomes "x"; every other character stays |
| Login.DigitsOfMask | app/login.tsx:44-50 | the mask keeps exactly the first one or two digits |
| Login.PlaceholderShape | app/login.tsx:36-56 | the placeholder has no white space and its digits are the example's first one or two |
| Login.ValidE164 | app/login.tsx:80-89 | an E.164 number is kept exactly when one is parsed and the library calls it valid |
| Login.AfterPhoneChange | app/login.tsx:58-94 | input that grows a possible number into an impossible one is refused; otherwise the digits are taken and validity follows the E.164 number; deleting is never refused; the state stays coherent |
| Login.IncomingCountry | app/login.tsx:99 | the first of the country, default code and iso2 parameters, upper-cased, or none |
| Login.LoginScreen.constructor | app/login.tsx:15-25 | an empty number for Saudi Arabia, +966, with the plain placeholder |
| Login.LoginScreen.HandlePhoneChange | app/login.tsx:58-94 | the number state changes as `AfterPhoneChange` says |
| Login.LoginScreen.OnIncomingCountry | app/login.tsx:97-105 | a two-letter country different from the current one is selected, with its flag and placeholder |
| Login.LoginScreen.ApplyPhoneParams | app/login.tsx:111-120 | "clear" empties the number; a passed phone is typed in; otherwise nothing changes |
| Login.LoginScreen.RefreshCountry | app/login.tsx:122-135 | the calling code, the possibility baseline and the placeholder follow the selected country |
| Login.LoginScreen.OnCountryEffect | app/login.tsx:108-136 | the two parts above, in order |
| Login.LoginScreen.OnChangeCountry | app/login.tsx:167-174 | the picked country's code, upper-cased, with its flag and calling code |
| Login.LoginScreen.SubmitRequest | app/login.tsx:138-143 | a code is requested exactly when there is a valid E.164 number, for that number |
| Login.LoginScreen.SendEnabledSubmits | app/login.tsx:195-196 | in a coherent field state the send button is enabled exactly when nothing is loading, the field is not empty and submitting would request a code |
| ChangePassword.CheckInputs | app/change-password.tsx:20-35 | the form passes exactly when signed in, all fields are filled, the new password has at least 6 UTF-16 units and is confirmed; the first failing guard's alert is raised, each guard in both directions: with the earlier guards passing, a short password always gives "Weak password" and a long unconfirmed one "Passwords do not match" |
| ChangePassword.LongPasswordsPass | app/change-password.tsx:20-35 | a signed-in form with a confirmed password of at least six characters passes every guard |
| ChangePassword.WeakBeforeMismatch | app/change-password.tsx:28-35 | a short, unconfirmed password is reported as weak, because the length guard comes first |
| ChangePassword.ChangePasswordScreen.constructor | app/change-password.tsx:14-17 | empty fields, not loading |
| ChangePassword.ChangePasswordScreen.OnCurrentText | app/change-password.tsx:86 | the field takes the text |
| ChangePassword.ChangePasswordScreen.OnNewText | app/change-password.tsx:94 | the field takes the text |
| ChangePassword.ChangePasswordScreen.OnConfirmText | app/change-password.tsx:102 | the field takes the text |
| ChangePassword.ChangePasswordScreen.HandleSave | app/change-password.tsx:19-66 | a failing guard calls nothing; otherwise the customer is looked up, only a row found is updated, success and going back happen exactly when the update succeeds, and loading ends |

## Left out

- Dates:
  - `new Date` is modelled only on the texts the calendar produces, `YYYY-MM-DD` naming a real day.
  - JavaScript engines differ on other texts, and on days past the end of a month; those are read as Invalid Dates here.
  - The model reads a date text as the local calendar day. This matches the engine only where the local time is at or ahead of UTC, which holds in the app's home market. West of UTC, `addDays` would shift the day, and that is not modelled.
- `formatDate` in app/order-summary.tsx:56-64 uses locale formatting (`toLocaleDateString`), which is not part of this model.
- Numbers:
  - `Number`, `parseInt` and JavaScript arithmetic are modelled on decimal digit strings: a whole number or NaN.
  - Hex prefixes, exponents, fractions and floating-point rounding are not modelled. Coordinates are reals.
  - The EV price uses exact arithmetic for `price * 0.88`.
- The haversine distance in app/search.tsx:82-99 is a parameter `distance`. The one-decimal rounding of the shown distance is left out, and `Rental.distance` holds the unrounded value that the radius test uses.
- The demo car catalogue in app/search.tsx:119-287 is a parameter `Catalogue`. The 1.5-second delay is left out.
- I/O and libraries are parameters or datatypes:
  - the network replies: geocoder, country codes, phone examples and the database;
  - AsyncStorage;
  - libphonenumber's parse, possible, valid and example functions;
  - the phone picker's calling code;
  - `JSON.parse`;
  - `localeCompare`, which may be any consistent comparator.
- Side effects are left out: the writes to storage and to the database, navigation, alerts, keyboard and focus handling, and animations.
- Timers:
  - The 350 ms debounce of the location lookup is left out: `OnQueryEffect` is the effect once its timer fires.
  - The one-second cooldown interval is `Tick`.
- Effects: each `useEffect` is a method the environment calls after the change that triggers it.
- `useCurrentLocation` in components/LocationSearch.tsx:180-211 relies on device location services, which are not part of this model.
- Card ids from `Date.now()` are an `id` parameter.
- Display-only lookups are not modelled: logos, colours and icons of card networks and banks, and the calendar's marking colours beyond the two constants.
- Text:
  - Upper and lower case are modelled on ASCII letters only.
  - Lengths are counted in characters, except for the password guard, which counts UTF-16 units as `length` does.
- The native `maxLength` of the profile phone field is left out. `phoneMax` and `phoneHint` in app/profile/edit.tsx:60-62 are computed (`ExampleFormat`) but the screen never uses them.
- Route parameters are modelled as strings, numbers or booleans. Arrays of strings are not.
- `isValidPhoneNumber` throwing is folded into "not valid".
- LocationSearch.Rank: states ranked and a permutation of the candidates, but not the stability of `Array.prototype.sort` among equal keys.
- DateUtils.BuildMarkedDates: for end points that are not dates with four-digit years, states only the two end markings, not which days the loop adds.
- Payment.CardWallet.RemoveCard: builds a new list. The source flips `isDefault` on an object it shares with the old list, and that aliasing is not modelled.

## Findings

| source | as written | input that shows it | evidently intended | confidence | as-written member | corrected member |
|---|---|---|---|---|---|---|
| app/payment.tsx:329 | the masking bullet is the three characters "â€¢": the UTF-8 bytes of "•" read as Windows-1252 | "4111111111111111" masks to 36 garbled characters, a space and "1111", 41 characters starting with "â" | one "•" per hidden digit: 12 bullets, a space and "1111", 17 characters | not executed | Payment.MaskGarbled | Payment.MaskCardNumber |
| app/profile/edit.tsx:162 | the saved phone is the code and the number with nothing between them, and the reload at line 86 takes up to four digits after "+" as the code; numbers stored at sign-in have the same shape (app/login.tsx:140-142 passes the E.164 number on to verification, and context/AuthContext.tsx:111 writes it into the customer row), so they mis-split on load before any save, and the defect lies in the reload pattern as much as in the join | code "+966" with number "512345678" saves "+966512345678", which reloads as code "+9665" and number "12345678" | the saved phone reloads as the same code and number; a space between them would give that, though it would no longer match the E.164 form the sign-in stores | not executed | ProfileEdit.ReloadAsWrittenExample | ProfileEdit.SaveReloadRoundTrip |
