# DC Art Production — a verified model of the site's behaviour

DC Art Production's website is a single-page React site for a wedding
photography studio. It has a small admin area, and a data provider that
in its current configuration serves mock data from memory. This project
models in Dafny the parts of the site that decide behaviour:

- **the data provider in mock mode** (`Api`):
  - the five collections;
  - the login rule;
  - appending a booking or a service;
  - deleting the first service with a given id;
- **the portfolio section** (`Portfolio`):
  - the category filter;
  - the lightbox, driven by clicks, the arrow and Escape keys, and a debounced mouse wheel;
- **the custom video player** inside the lightbox (`VideoPlayer`): play state, seek, volume and mute, the "no sound" notice, fullscreen;
- **the FAQ accordion** (`Faq`): the featured FAQs, at most five, with one answer open at a time;
- **the testimonial carousel** (`Testimonials`): a 6-second rotation and the dot buttons;
- **the chat widget** (`Chatbot`):
  - canned answers that arrive after a typing delay;
  - the WhatsApp hand-off of a non-blank free-text message;
- **the admin login page** (`AdminLogin`) and **the dashboard** (`AdminDashboard`):
  - the token in local storage;
  - the redirect to the login page;
  - logout;
  - the sidebar tabs;
- **the contact form** (`Contact`):
  - required-field validation;
  - submission to the provider;
  - reset on success;
- **the navigation bar** (`Navbar`):
  - its scrolled look;
  - the mobile menu;
  - hash links that scroll on the home page or route home first;
- **the event-date picker** (`DatePicker`):
  - the month grid and paging;
  - the day highlight;
  - the field's label;
  - closing on a pick or on an outside click.

The record types are in `Types`. Local storage and the router's current path are in `Browser.Window`.

Each component that keeps state is a class whose methods are its event handlers. Each method's postcondition states the whole new state. The rules those handlers apply are pure functions, with lemmas about them:

- the filter predicate;
- index wrap-around;
- trimming;
- validation;
- the routing decision;
- calendar arithmetic.

Timers are explicit "fired" methods. The clock (`Date.now()`, `toISOString()`) is a parameter.

## Model

| member | source | states |
|---|---|---|
| Api.Login | src/services/api.ts:149-162 | login succeeds exactly for admin/password and then returns success with the token "mock-token"; any other pair fails with the invalid-credentials error |
| Api.RemoveFirst | src/services/api.ts:168-170 | deleting by id shortens the list by one when some service has that id and leaves it unchanged when none has |
| Api.RemoveFirstIsSplice | src/services/api.ts:168-170 | the deletion removes exactly the first service with the id: the result is the list with that one position spliced out |
| Api.RemoveFirstKeepsOrder | src/services/api.ts:168-170 | the remaining services keep their relative order |
| Api.RemoveFirstKeepsOthers | src/services/api.ts:168-170 | every service with a different id occurs as often after the deletion as before |
| Api.FindIndex | src/services/api.ts:169 | findIndex returns -1 exactly when no service has the id, otherwise the first index holding it |
| Api.NewBooking | src/services/api.ts:137 | the stored booking carries exactly the request's five fields, the given id and timestamp, and status "new" |
| Api.MockStore.constructor | src/services/api.ts:9-101 | the store starts with the five mock collections |
| Api.MockStore.GetServices | src/services/api.ts:104-108 | the services read returns the stored list |
| Api.MockStore.GetPortfolio | src/services/api.ts:110-114 | the portfolio read returns the stored list |
| Api.MockStore.GetTestimonials | src/services/api.ts:116-120 | the testimonials read returns the stored list |
| Api.MockStore.GetFaqs | src/services/api.ts:122-126 | the FAQ read returns the stored list |
| Api.MockStore.GetBookings | src/services/api.ts:128-132 | the bookings read returns the stored list |
| Api.MockStore.SubmitBooking | src/services/api.ts:134-139 | a submission always succeeds and appends one booking with the request's fields, the given id and timestamp and status "new"; the other collections are untouched |
| Api.MockStore.AddService | src/services/api.ts:165-167 | adding appends one service with the given fields and id; nothing else changes |
| Api.MockStore.DeleteService | src/services/api.ts:168-170 | deleting replaces the services with the first-match removal of the old list; nothing else changes |
| Browser.Window.GetItem | src/pages/admin/AdminDashboard.tsx:18 | reading a key yields its stored value, or nothing when the key is absent |
| Browser.Window.SetItem | src/pages/admin/AdminLogin.tsx:17 | storing a key overwrites that key only and keeps the route |
| Browser.Window.RemoveItem | src/pages/admin/AdminDashboard.tsx:36 | removing a key drops that key only and keeps the route |
| Browser.Window.Navigate | src/pages/admin/AdminLogin.tsx:18 | navigating changes the route and keeps the storage |
| Portfolio.Keeps | src/components/sections/Portfolio.tsx:131 | "Films" keeps exactly the videos, "Wedding" every photo, and any other category the photos of that category |
| Portfolio.KeepMatching | src/components/sections/Portfolio.tsx:131 | filtering never lengthens the list |
| Portfolio.FilteredItems | src/components/sections/Portfolio.tsx:129-131 | the grid never shows more items than were fetched |
| Portfolio.FilterSpec | src/components/sections/Portfolio.tsx:129-131 | "All" shows the items unchanged; any other filter shows an order-preserving subsequence holding exactly the items the filter test keeps, each as many times as it was fetched |
| Portfolio.KeepMatchingMembers | src/components/sections/Portfolio.tsx:131 | an item is shown exactly when it is fetched and passes the filter test, as often as it was fetched (none if it fails), and the shown items keep their order |
| Portfolio.FilmsKeepsVideos | src/components/sections/Portfolio.tsx:131 | "Films" shows exactly the videos |
| Portfolio.WeddingKeepsAllPhotos | src/components/sections/Portfolio.tsx:131 | "Wedding" shows every photo, whatever its category |
| Portfolio.PreWeddingKeepsItsPhotos | src/components/sections/Portfolio.tsx:131 | "Pre-Wedding" shows exactly the photos of that category |
| Portfolio.NextIndex | src/components/sections/Portfolio.tsx:133-136 | next moves one forward, wraps the last index to 0 and stays in range |
| Portfolio.PrevIndex | src/components/sections/Portfolio.tsx:138-141 | previous moves one back, wraps 0 to the last index and stays in range |
| Portfolio.NextPrevInverse | src/components/sections/Portfolio.tsx:133-141 | next and previous undo each other on every valid index |
| Portfolio.Lightbox.constructor | src/components/sections/Portfolio.tsx:119-126 | the section starts on "All" with the lightbox closed and no wheel debounce |
| Portfolio.Lightbox.SelectCategory | src/components/sections/Portfolio.tsx:184-186 | a category button sets the filter and closes the lightbox |
| Portfolio.Lightbox.Open | src/components/sections/Portfolio.tsx:214 | a grid click opens the lightbox on that index of the filtered list |
| Portfolio.Lightbox.Close | src/components/sections/Portfolio.tsx:259-263 | the close button and the backdrop close the lightbox |
| Portfolio.Lightbox.Next | src/components/sections/Portfolio.tsx:133-136 | while open, the selection moves to NextIndex; while closed nothing happens; the selection stays in range |
| Portfolio.Lightbox.Prev | src/components/sections/Portfolio.tsx:138-141 | while open, the selection moves to PrevIndex; while closed nothing happens; the selection stays in range |
| Portfolio.Lightbox.KeyDown | src/components/sections/Portfolio.tsx:143-152 | while open, ArrowRight steps forward, ArrowLeft steps back and Escape closes; other keys, and every key while closed, change nothing |
| Portfolio.Lightbox.Wheel | src/components/sections/Portfolio.tsx:154-164 | while open and not debounced, a wheel event steps in the direction of deltaY (none for 0) and starts the debounce; otherwise it changes nothing (the corrected debounce, see Findings) |
| Portfolio.Lightbox.DebounceExpired | src/components/sections/Portfolio.tsx:160 | the 300 ms timer clears the debounce and nothing else |
| Portfolio.Lightbox.SelectedItem | src/components/sections/Portfolio.tsx:166 | the lightbox shows an item exactly when an index is selected, and it is that element of the filtered list |
| Portfolio.AfterSelect | src/components/sections/Portfolio.tsx:154-164 | as written, a selection change re-runs the listener effect, whose cleanup cancels the live timer but keeps the debounce ref; an unchanged selection changes nothing |
| Portfolio.StepAsWritten | src/components/sections/Portfolio.tsx:143-164 | as written, a wheel event while the ref is set changes nothing, a set ref without a live timer stays so after any event, and the selection stays in range |
| Portfolio.RunAsWritten | src/components/sections/Portfolio.tsx:143-164 | as written, a run of events whose grid clicks are in range keeps the selection in range; no events change nothing |
| Portfolio.StuckForever | src/components/sections/Portfolio.tsx:154-164 | as written, once the debounce ref is set with its timer cancelled, no sequence of wheel, key, click or timer events clears it |
| Portfolio.WheelNavigatesOnlyOnce | src/components/sections/Portfolio.tsx:154-164 | as written, with two items open at index 0, one wheel step moves to index 1 and afterwards no wheel event changes anything |
| VideoPlayer.HasAudio | src/components/sections/Portfolio.tsx:12 | an item has sound unless its flag is explicitly false |
| VideoPlayer.ProgressPercent | src/components/sections/Portfolio.tsx:71 | progress is 0 while the duration is unknown and lies in 0..100 while the time is within the duration |
| VideoPlayer.RatioWithinUnit | src/components/sections/Portfolio.tsx:71 | the played fraction currentTime / duration lies in 0..1 while the time is within a positive duration |
| VideoPlayer.Player.constructor | src/components/sections/Portfolio.tsx:12-27 | a player starts paused at time 0; with sound it is unmuted at full volume, without sound it is muted at volume 0 |
| VideoPlayer.Player.TogglePlay | src/components/sections/Portfolio.tsx:29-36 | a click flips playing and nothing else |
| VideoPlayer.Player.Ended | src/components/sections/Portfolio.tsx:76 | the end of the video stops playing |
| VideoPlayer.Player.SetTime | src/components/sections/Portfolio.tsx:38-43 | a time update or a seek sets the current time only |
| VideoPlayer.Player.LoadedMetadata | src/components/sections/Portfolio.tsx:39 | the metadata sets the duration only |
| VideoPlayer.Player.VolumeChange | src/components/sections/Portfolio.tsx:44-49 | without sound the slider does nothing; with sound it sets the volume and mutes exactly at 0 |
| VideoPlayer.Player.ToggleMute | src/components/sections/Portfolio.tsx:50-59 | without sound it shows the notice and changes nothing else; with sound it flips mute, and unmuting at volume 0 restores volume 0.5; "unmuted means audible" is preserved |
| VideoPlayer.Player.NoSoundTimerFired | src/components/sections/Portfolio.tsx:52 | the 2-second timer hides the notice |
| VideoPlayer.Player.ToggleFullscreen | src/components/sections/Portfolio.tsx:60-64 | fullscreen is entered when the document is not fullscreen and left when it is |
| Faq.Featured | src/components/sections/FAQ.tsx:16 | the featured list is never longer than the fetched one |
| Faq.ShownFaqs | src/components/sections/FAQ.tsx:16 | at most five FAQs are shown, and never more than were fetched |
| Faq.FeaturedMembers | src/components/sections/FAQ.tsx:16 | the featured list holds exactly the featured FAQs, each as often as it was fetched, in their order |
| Faq.ShownFaqsSpec | src/components/sections/FAQ.tsx:16 | exactly min(5, number of featured) FAQs are shown, all featured, as a prefix of the featured list; a featured FAQ is left out only when five are already shown |
| Faq.FeaturedOfSplit | src/components/sections/FAQ.tsx:16 | when the first k FAQs are featured and the rest are not, the featured list is exactly those k |
| Faq.MockFaqsShown | src/components/sections/FAQ.tsx:13-18 | with the mock data the section shows the first four FAQs |
| Faq.ToggleOpen | src/components/sections/FAQ.tsx:30 | clicking a question opens it unless it was the open one, which closes |
| Faq.ToggleTwice | src/components/sections/FAQ.tsx:30 | two clicks on the same question restore the previous state |
| Faq.Accordion.constructor | src/components/sections/FAQ.tsx:10-11 | the accordion starts empty with the first answer marked open |
| Faq.Accordion.Loaded | src/components/sections/FAQ.tsx:13-18 | the fetch stores the shown FAQs and keeps the open index |
| Faq.Accordion.Click | src/components/sections/FAQ.tsx:30 | a click toggles that answer and leaves every other answer closed |
| Testimonials.Advance | src/components/sections/Testimonials.tsx:19 | a tick moves to the next testimonial, wraps the last to the first and stays in range |
| Testimonials.AdvanceTimes | src/components/sections/Testimonials.tsx:18-20 | any number of ticks from a valid index stays in range |
| Testimonials.AdvanceWithoutWrap | src/components/sections/Testimonials.tsx:18-20 | k ticks that do not reach the end move exactly k places |
| Testimonials.AdvanceCompose | src/components/sections/Testimonials.tsx:18-20 | a + b ticks equal a ticks followed by b ticks |
| Testimonials.FullCycle | src/components/sections/Testimonials.tsx:18-20 | after as many ticks as there are testimonials, the carousel is back where it started |
| Testimonials.Carousel.constructor | src/components/sections/Testimonials.tsx:9-10 | the carousel starts empty at index 0 with no timer |
| Testimonials.Carousel.Loaded | src/components/sections/Testimonials.tsx:12-22 | the fetch stores the list, and the rotation timer runs exactly when the list is not empty |
| Testimonials.Carousel.Tick | src/components/sections/Testimonials.tsx:18-20 | every 6 seconds the index advances with wrap-around |
| Testimonials.Carousel.ClickDot | src/components/sections/Testimonials.tsx:74 | a dot jumps to its testimonial |
| Testimonials.Carousel.Rendered | src/components/sections/Testimonials.tsx:24-64 | nothing renders while the list is empty; otherwise the current testimonial renders |
| Chatbot.TrimStart | src/components/ui/Chatbot.tsx:41 | trimming the start never lengthens the text |
| Chatbot.TrimEnd | src/components/ui/Chatbot.tsx:41 | trimming the end never lengthens the text |
| Chatbot.Trim | src/components/ui/Chatbot.tsx:41 | trim never lengthens the text |
| Chatbot.TrimStartEmpty | src/components/ui/Chatbot.tsx:41 | trimming the start leaves nothing exactly when every character is whitespace |
| Chatbot.TrimEndEmpty | src/components/ui/Chatbot.tsx:41 | trimming the end leaves nothing exactly when every character is whitespace |
| Chatbot.TrimStartKeepsSuffix | src/components/ui/Chatbot.tsx:41 | trimming the start keeps a suffix that begins with a non-whitespace character |
| Chatbot.BlankIffAllWhitespace | src/components/ui/Chatbot.tsx:41 | a message is blank after trim exactly when every character is whitespace |
| Chatbot.WhatsAppUrl | src/components/ui/Chatbot.tsx:44 | the link is the studio's wa.me prefix followed by exactly the encoded text |
| Chatbot.WhatsAppUrlDeterminesText | src/components/ui/Chatbot.tsx:44 | two messages that open the same link have the same encoding: the link carries the whole message |
| Chatbot.Widget.constructor | src/components/ui/Chatbot.tsx:15-21 | the chat starts closed, with only the greeting and an empty input |
| Chatbot.Widget.FaqsLoaded | src/components/ui/Chatbot.tsx:24-26 | the fetch stores all FAQs as answer options |
| Chatbot.Widget.OpenChat | src/components/ui/Chatbot.tsx:50 | the launcher opens the chat and changes nothing else |
| Chatbot.Widget.CloseChat | src/components/ui/Chatbot.tsx:69 | the close button closes the chat and keeps the conversation |
| Chatbot.Widget.OptionClick | src/components/ui/Chatbot.tsx:31-33 | an option appends the question as a user message, shows typing and queues its answer; the greeting stays first |
| Chatbot.Widget.ReplyFired | src/components/ui/Chatbot.tsx:34-37 | after 800 ms the oldest queued answer is appended as a bot message and typing stops |
| Chatbot.Widget.TypeInput | src/components/ui/Chatbot.tsx:97 | typing sets the input only |
| Chatbot.Widget.SendCustomMessage | src/components/ui/Chatbot.tsx:40-46 | a blank input does nothing; otherwise the input clears and the WhatsApp link for the untrimmed text opens |
| AdminLogin.LoginEffectOf | src/pages/admin/AdminLogin.tsx:12-23 | a login stores token "mock-token" exactly for admin/password; any other pair shows the invalid-username-or-password error; a response without success and without an error would change nothing, and the mock provider never sends one |
| AdminLogin.LoginPage.constructor | src/pages/admin/AdminLogin.tsx:7-9 | the page starts with empty fields and no error |
| AdminLogin.LoginPage.TypeUsername | src/pages/admin/AdminLogin.tsx:36 | typing sets the username only |
| AdminLogin.LoginPage.TypePassword | src/pages/admin/AdminLogin.tsx:45 | typing sets the password only |
| AdminLogin.LoginPage.HandleLogin | src/pages/admin/AdminLogin.tsx:12-23 | on success the token is stored under adminToken and the route becomes the dashboard; on failure the error shows and storage and route are untouched |
| AdminDashboard.RenderContent | src/pages/admin/AdminDashboard.tsx:40-141 | bookings, services and portfolio each show their own list, bookings with its count; every other tab shows a coming-soon notice naming it |
| AdminDashboard.UnmanagedTabs | src/pages/admin/AdminDashboard.tsx:149-155 | of the five sidebar tabs, exactly testimonials and FAQs show the coming-soon notice |
| AdminDashboard.TokenMissing | src/pages/admin/AdminDashboard.tsx:18-19 | a stored token lets the user stay exactly when it is a non-empty string; a missing key and "" both redirect |
| AdminDashboard.Dashboard.constructor | src/pages/admin/AdminDashboard.tsx:10-15 | the dashboard starts on the bookings tab with empty lists |
| AdminDashboard.Dashboard.Mount | src/pages/admin/AdminDashboard.tsx:17-33 | a missing or empty token redirects to the login page; the three lists are fetched either way |
| AdminDashboard.Dashboard.Logout | src/pages/admin/AdminDashboard.tsx:35-38 | logout removes the token, and only it, and goes to the login page |
| AdminDashboard.Dashboard.SelectTab | src/pages/admin/AdminDashboard.tsx:158 | a sidebar click switches the tab and keeps the data |
| AdminDashboard.Dashboard.Content | src/pages/admin/AdminDashboard.tsx:47 | the bookings header count equals the number of stored bookings |
| Contact.StripNewlines | src/components/sections/Contact.tsx:136-165 | the name, phone and email inputs drop every line feed and carriage return and keep every other character |
| Contact.NameBlankIffLineBreaks | src/components/sections/Contact.tsx:136-153 | a name or phone is held empty, and so fails the required rule, exactly when everything typed was a line break |
| Contact.StripLeading | src/components/sections/Contact.tsx:163-165 | stripping leading ASCII whitespace never lengthens the email, and what is left starts with a non-whitespace character |
| Contact.StripLeadingIsSuffix | src/components/sections/Contact.tsx:163-165 | what is left after stripping leading whitespace is a suffix of the value |
| Contact.StripTrailing | src/components/sections/Contact.tsx:163-165 | stripping trailing ASCII whitespace keeps a prefix of the value that ends with a non-whitespace character |
| Contact.SanitizeEmail | src/components/sections/Contact.tsx:163-165 | the email input holds only typed characters, none of them a line break, and starts and ends with a non-whitespace character |
| Contact.StripLeadingSpec | src/components/sections/Contact.tsx:163-165 | stripping leading ASCII whitespace leaves nothing exactly when every character is whitespace, and otherwise starts with a non-whitespace character |
| Contact.StripTrailingKeepsHead | src/components/sections/Contact.tsx:163-165 | stripping trailing whitespace never empties a value that starts with a non-whitespace character |
| Contact.EmailBlankIffWhitespace | src/components/sections/Contact.tsx:163-165 | the sanitized email is empty exactly when the typed value is all ASCII whitespace, so such an email fails the required rule |
| Contact.MissingFields | src/components/sections/Contact.tsx:137-169 | react-hook-form's required rule: exactly the fields among name, phone and email whose value is the empty string are reported missing |
| Contact.OptionalFieldsIgnored | src/components/sections/Contact.tsx:177-193 | date and message never affect react-hook-form's required rule; it passes exactly when the three required fields are non-empty |
| Contact.ChangedFields | src/components/sections/Contact.tsx:10 | a required field counts as changed exactly when an edit gives it a different value |
| Contact.Revalidate | src/components/sections/Contact.tsx:10 | after a submission attempt, each changed required field's error reflects its new value and every other field keeps its error |
| Contact.TypingANameClearsItsError | src/components/sections/Contact.tsx:10 | after an empty form was blocked, typing a name clears that error only |
| Contact.ClearingANameAfterSendShowsItsError | src/components/sections/Contact.tsx:10-20 | after a sent form was reset, typing a name shows no error, and clearing it again shows the name's error at once |
| Contact.ContactForm.constructor | src/components/sections/Contact.tsx:10 | the form starts empty, without errors and not yet submitted |
| Contact.ContactForm.Edit | src/components/sections/Contact.tsx:137-193 | editing sets the field values, name and phone without line breaks and the email sanitized; before a submission attempt the errors stay empty, after one each changed field is validated again |
| Contact.ContactForm.Submit | src/components/sections/Contact.tsx:12-20 | a non-empty email the browser rejects stops the submission with nothing changed; otherwise the form is marked submitted, and an invalid form shows its missing fields and sends nothing; a sent form appends the booking, shows the thank-you alert and resets the values and errors, while the form stays marked submitted; a failed send shows the failure alert and keeps the values |
| Navbar.NavDecision | src/components/layout/Navbar.tsx:22-50 | a hash link scrolls to the id after the '#', directly on "/" and after routing home elsewhere; any other href is routed to |
| Navbar.NavLinksScrollToSections | src/components/layout/Navbar.tsx:52-59 | every bar link is a hash link, and "#contact" targets the element "contact" |
| Navbar.Bar.constructor | src/components/layout/Navbar.tsx:8-9 | the bar starts unscrolled with the menu closed |
| Navbar.Bar.OnScroll | src/components/layout/Navbar.tsx:13-19 | the bar is in its scrolled look exactly past 50 px |
| Navbar.Bar.ToggleMenu | src/components/layout/Navbar.tsx:112 | the hamburger flips the mobile menu |
| Navbar.Bar.NavClick | src/components/layout/Navbar.tsx:22-50 | a link click closes the menu, then scrolls, routes home, or routes to the href, according to NavDecision |
| DatePicker.DaysInMonth | src/components/ui/CustomDatePicker.tsx:28-31 | a month has 28 to 31 days, and February has 29 exactly in leap years |
| DatePicker.AddMonth | src/components/ui/CustomDatePicker.tsx:65 | the next-month button moves forward exactly one month |
| DatePicker.SubMonth | src/components/ui/CustomDatePicker.tsx:59 | the previous-month button moves back exactly one month |
| DatePicker.PagingInverse | src/components/ui/CustomDatePicker.tsx:59-65 | forward then back, or back then forward, returns to the same month |
| DatePicker.DayGrid | src/components/ui/CustomDatePicker.tsx:28-31 | the grid holds every valid day of the month, from the 1st to the last, in order (as written: no blank cells before the 1st) |
| DatePicker.DayNumber | src/components/ui/CustomDatePicker.tsx:70-91 | consecutive days of a month get consecutive day numbers |
| DatePicker.Weekday | src/components/ui/CustomDatePicker.tsx:70-91 | a weekday is one of the seven columns 0 (Sunday) to 6 (Saturday) |
| DatePicker.WeekdayOffset | src/components/ui/CustomDatePicker.tsx:70-91 | the weekday of day d is the 1st's weekday moved on by d - 1 |
| DatePicker.GridMisaligned | src/components/ui/CustomDatePicker.tsx:70-91 | as written, the grid for October 2026 starts with the 1st, a Thursday (weekday 4), in the Sunday column, so some cell sits under the wrong weekday |
| DatePicker.AlignedGrid | src/components/ui/CustomDatePicker.tsx:70-91 | the corrected grid pads with blanks up to the 1st's weekday, so that every day sits in its own weekday's column, and otherwise holds the days in order |
| DatePicker.LongDate | src/components/ui/CustomDatePicker.tsx:46 | the long date is the month name, a space, the ordinal day, a comma and space, and the year, and ends with the year |
| DatePicker.Label | src/components/ui/CustomDatePicker.tsx:45-47 | the field shows "Select Event Date" exactly when no date is selected, and otherwise the long date |
| DatePicker.StyleOf | src/components/ui/CustomDatePicker.tsx:85-86 | a day is filled exactly when it is the selected one, outlined exactly when it is today and nothing is selected, and never both |
| DatePicker.HighlightRules | src/components/ui/CustomDatePicker.tsx:85-86 | at most one day is filled, at most one is outlined, never one filled while another is outlined, and a selected day of the month is the filled one |
| DatePicker.Picker.constructor | src/components/ui/CustomDatePicker.tsx:14-15 | the picker starts closed on today's month |
| DatePicker.Picker.ToggleOpen | src/components/ui/CustomDatePicker.tsx:41 | a click on the field flips open |
| DatePicker.Picker.MouseDown | src/components/ui/CustomDatePicker.tsx:18-26 | a press outside the picker closes it; a press inside changes nothing |
| DatePicker.Picker.PrevMonth | src/components/ui/CustomDatePicker.tsx:59 | the grid shows the previous month |
| DatePicker.Picker.NextMonth | src/components/ui/CustomDatePicker.tsx:65 | the grid shows the next month |
| DatePicker.Picker.Cells | src/components/ui/CustomDatePicker.tsx:76-91 | the picker lays out the shown month's days in the corrected grid: each day of the month under its own weekday |
| DatePicker.Picker.Select | src/components/ui/CustomDatePicker.tsx:33-36 | a day button reports exactly that day and closes the picker |

## Left out

- **Production mode:** the data provider's network branches (`IS_PRODUCTION = true`, fetch to the PHP backend) are not modelled. In mock mode, which is the configured mode, they never run.
- **Asynchrony:** promises resolve in one step. Each fetch-then-set is a single method call.
- **Rendering:** the first render before a mount effect has run is not modelled. Nor are animation and styling.
- **Video player:**
  - The controls' auto-hide after 2 seconds of mouse stillness is not modelled; it only affects opacity.
  - `isVolumeDragging`, which only feeds that auto-hide, is not modelled.
  - The media element itself (`play`, `pause`, `muted`, `volume`) is not modelled; the player's state mirrors it.
  - The Fullscreen API is a parameter: whether the document is fullscreen.
- **Numbers:** volume is kept in whole hundredths (0..100). The slider's step is 0.01, so 0.5 is 50 and 1 is 100. Times and scroll offsets are `real`, not IEEE doubles.
- **Browser effects:**
  - Scrolling an element into view is not modelled. The navbar returns the id it would scroll to.
  - Auto-scrolling the chat to its last message is not modelled.
  - `window.open` is not modelled. The chat returns the link it would open.
  - `encodeURIComponent` is a function parameter of `Chatbot.WhatsAppUrl`.
- **Clock:** ids from `Date.now()` and `toISOString()` timestamps are parameters.
- Contact.ContactForm.Submit: `providerThrows` stands for the provider rejecting, which in mock mode it never does; the browser's alert dialog is the returned outcome. The browser's email syntax check is the function parameter `emailAccepted`; which addresses it accepts is not modelled.
- **Contact, name and phone:** react-hook-form's required rule does not trim, so a name or phone of spaces passes, as in the source. The browser removes only their line breaks; it trims only the email.
- **Contact, message:** the textarea's normalization of CR LF and CR to LF is not modelled. The message is optional and never validated.
- **Contact, submitted mark:** `reset()` runs inside `onSubmit`, and react-hook-form marks the form submitted after `onSubmit` returns. `Contact.ContactForm.Submit` models the outcome: after a send the form stays marked submitted.
- **Mock store aliasing:** the mock getters return the live `MOCK_*` arrays (src/services/api.ts:105-131), and `push` and `splice` (api.ts:137, 166, 169) then change arrays that callers already hold. `Api.MockStore`'s getters return value copies, so a component's list does not change under it after a later submission or deletion. This sharing is not modelled.
- **Contact dates:** the picked event date is carried as a string. The form stores a JavaScript `Date`.
- **DatePicker, month state:** `currentMonth` is only its year and month. The day part of the `Date` plays no role in the grid or the paging.
- **DatePicker, heading:** the month heading text ("MMMM yyyy") is not modelled.
- **DatePicker, `today`:** "today" is a parameter.
- DatePicker.Label: states only when the placeholder shows, not the characters of the long date; `LongDate` states its layout (month name, ordinal day, year), not the digits of the year.
- **Chat replies:** all use the same 800 ms delay, so they fire in click order. `Chatbot.Widget.ReplyFired` models them as a first-in first-out queue, one timer per queued answer. The typing indicator turns off at the first reply, as in the source.
- **Not modelled:**
  - `src/App.tsx`;
  - the loading screen;
  - the hero, about, services and footer sections;
  - the WhatsApp button and the gallery page.
  They are presentational or routing shells with no rules of their own.
- **Admin dashboard actions:** the edit, delete and add buttons on the admin dashboard have no handlers in the source, so there is nothing to model. `Api.MockStore.AddService` and `Api.MockStore.DeleteService` are modelled on the provider side.

## Findings

| source | as written | input that shows it | evidently intended | confidence | as-written member | corrected member |
|---|---|---|---|---|---|---|
| src/components/sections/Portfolio.tsx:154-164 | the wheel effect's cleanup cancels the pending 300 ms timer but leaves `scrollTimeoutRef` set; the effect re-runs whenever `selectedIndex` changes, so the timer that would clear the ref is cancelled by the very step it debounces | lightbox open on item 0 of 2, one wheel event with deltaY > 0: the view moves to item 1, and from then on every wheel event returns early, whatever keys, clicks or timers follow | the debounce lapses 300 ms after each navigating wheel step, so the wheel keeps navigating | high (not executed) | Portfolio.WheelNavigatesOnlyOnce | Portfolio.Lightbox.Wheel |
| src/components/ui/CustomDatePicker.tsx:28-31 | the seven-column day grid under the S M T W T F S header starts with the 1st in the first column, whatever its weekday; the dead `!isSameMonth` styling shows that padding days were intended | October 2026: the 1st is a Thursday (weekday 4) but sits under the Sunday header | cells before the 1st up to its weekday, so that every day sits under its own weekday | high (not executed) | DatePicker.GridMisaligned | DatePicker.AlignedGrid |
