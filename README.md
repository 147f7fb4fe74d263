# Tasky website: form controllers and auto-scroll carousel

A Dafny model of the two pieces of sequential logic in the Tasky marketing site:

- **The contact form** of the home page (`src/app/page.tsx`) and **the feature-request form**
  (`src/app/feature/page.tsx`). Each keeps a record of text fields, an `isSubmitting` flag and
  an optional `{success, message}` status. `handleChange` overwrites one field. `handleSubmit`
  checks the required fields, raises the flag, sends one document to the `contactSubmissions`
  collection, reports success (and clears the fields) or failure (and keeps them), and always
  lowers the flag.
- **The screenshot carousel** of the home page. An effect starts an interval that moves the
  scroll container forward by half its visible width, or back to 0 once the viewport is within
  10 px of the end. Pointer-enter clears the interval, pointer-leave starts a new one, and the
  effect's cleanup clears it.

Modules:

- `Common` (`common.dfy`): `Option` (for the source's `null`) and `Status`.
- `Store` (`store.dfy`): the document store as a `Database` class whose `AddDoc` appends a
  `Doc` to a named collection. The two forms write different document shapes
  (`ContactDoc`, `FeatureDoc`) to the same collection.
- `ContactForm` (`contact_form.dfy`) and `FeatureForm` (`feature_form.dfy`): the form state as a
  pure `State` with one step function per handler, plus inductive lemmas over any sequence of
  edits, presses and store answers. The component itself is a `Controller` class whose methods
  update the fields in the order the handler does. Each method's contract ties its new state to
  the step functions (`Snapshot() == Step(old(Snapshot()), e)`, or `Run` of a press and a
  settlement for `Submit`) and states the outcome directly.
  The `async` handler is split at its `await`:
  - `HandleSubmit` runs validation, raises the flag and makes the store call. The awaited record
    is kept in `pending`.
  - `Resolve(ok)` runs the success or failure branch and the `finally`.
  - `Submit(createdAt, storeOk)` runs both halves in sequence.

  The submit button is `disabled={isSubmitting}`. So a submission can start only while the flag
  is down: this is a precondition of the methods and a guard in the event model.
- `Carousel` (`carousel.dfy`): the container as a `ScrollBox` class. Its `ScrollTo`/`ScrollBy`
  give the requested offset, clamped to `[0, scrollWidth - clientWidth]`. The effect is an
  `AutoScroll` class holding `isHovering`, `scrollInterval` and the set of running intervals.
  The pure side has two parts:
  - the offset after `n` firings (`After`), with a closed form from offset 0;
  - an event model (`Fire`, `Enter`, `Leave`, `Unmount`, `Drag`) for hovering and teardown.

How the model reads the code:

- The home page renders inputs with the ids `name`, `email`, `phone` and `message`
  (`src/app/page.tsx:783-842`) but none with the id `subject`. So `subject` stays `''`, and so
  does the `subject` of every stored document (`ContactForm.SubjectStaysEmpty`).
- The home page's success text ends in the four characters U+F8FF, `ü`, `ò`, `ä`
  (`src/app/page.tsx:123`), and that is what the page shows. They are most likely an emoji's
  UTF-8 bytes read as Mac Roman, but the model keeps the literal exactly as the file has it:
  `\U{F8FF}\U{FC}\U{F2}\U{E4}`.
- `handleMouseLeave` calls `startAutoScroll` without clearing the interval in `scrollInterval`
  first. A leave with no enter before it can happen when the pointer is already over the
  container when the listeners are attached. In that case two intervals run, and the cleanup
  clears only the newer one. `Carousel.UnpairedLeaveLeaks` shows this state. The invariants
  about hovering and teardown are proved for the case where the browser pairs every leave with
  an earlier enter (`Carousel.PairedRun`).
- The carousel does not jump to 0 when a step *would* pass the end. It first advances, and the
  requested offset is clamped to the end. The firing after that sees the viewport within 10 px of
  the end and jumps to 0. The model follows the code here.

## Model

| member | source | states |
|---|---|---|
| `Store.Database.constructor` | src/app/page.tsx:114 | the store starts with no request logged for any collection |
| `Store.Database.AddDoc` | src/app/page.tsx:114-118 | `addDoc(collection(db, name), doc)` appends `doc` to the request log of collection `name` (failed calls included) and leaves every other collection's log as it was |
| `ContactForm.Update` | src/app/page.tsx:93-99 | after `handleChange(id, value)` field `id` reads `value` and every other field reads what it read before |
| `ContactForm.Record` | src/app/page.tsx:114-118 | the stored document carries exactly the five current field values, the given `createdAt` and `emailSent = false` |
| `ContactForm.RequiredFieldsOnly` | src/app/page.tsx:103 | the guard passes iff each of name, email, message is non-empty; editing `phone` or `subject` never changes its verdict |
| `ContactForm.RejectedSubmit` | src/app/page.tsx:103-109 | with name, email or message empty: status `{false, 'Please fill in all required fields'}`, no document sent, fields and flag unchanged |
| `ContactForm.AcceptedSubmit` | src/app/page.tsx:110-118 | with the required fields present: exactly one document, of the current fields, is sent, and the flag is up while it is awaited |
| `ContactForm.SuccessfulSubmit` | src/app/page.tsx:121-132 | a successful store call gives `{true, 'Message sent successfully!…'}`, every one of the five fields `''`, flag down |
| `ContactForm.FailedSubmit` | src/app/page.tsx:133-141 | a failed store call gives `{false, 'Failed to send message. Please try again.'}`; fields and everything else are as before the press |
| `ContactForm.EmptyNameExample` | src/app/page.tsx:103-109 | the form `{name:'', email:'jo@x.com', message:'hi'}` is rejected with the required-fields message and sends nothing |
| `ContactForm.RunKeepsValid` | src/app/page.tsx:110-141 | over any sequence of edits, presses and store answers, `isSubmitting` is up exactly while a store call is awaited |
| `ContactForm.RequestsAreComplete` | src/app/page.tsx:103-118 | every document the form ever sends has a non-empty name, email and message and `emailSent = false` |
| `ContactForm.OneRequestInFlight` | src/app/page.tsx:858 | documents sent = store calls answered + the one still awaited (at most one in flight, given the disabled button) |
| `ContactForm.SubjectStaysEmpty` | src/app/page.tsx:783-842 | with edits only from the rendered inputs, `subject` stays `''` in the form and in every document sent |
| `ContactForm.HasRequired` | src/app/page.tsx:103 | the submit guard: name, email and message all non-empty |
| `ContactForm.AfterChange` | src/app/page.tsx:93-99 | `handleChange` on the state: only the form changes, by `Update` |
| `ContactForm.AfterSubmit` | src/app/page.tsx:101-118 | the handler up to its `await`: the required-fields status, or the flag up with the record of the current fields awaited |
| `ContactForm.AfterSettle` | src/app/page.tsx:121-141 | the handler after its `await`: success status and blank form, or failure status; then flag down and nothing awaited |
| `ContactForm.Step` | src/app/page.tsx:858 | one event: an edit, a press (ignored while the button is disabled by `isSubmitting`), or the awaited call settling |
| `ContactForm.Controller.constructor` | src/app/page.tsx:80-91 | the form starts blank, flag down, status `null` |
| `ContactForm.Controller.HandleChange` | src/app/page.tsx:93-99 | overwrites one field; flag, status and the awaited call unchanged |
| `ContactForm.Controller.HandleSubmit` | src/app/page.tsx:101-118 | validation failure: message, no store call, form and flag unchanged; otherwise flag up, one `addDoc` to `contactSubmissions` with the current fields |
| `ContactForm.Controller.Resolve` | src/app/page.tsx:121-141 | success: success message and blank form; failure: failure message and form kept; flag down in both |
| `ContactForm.Controller.Submit` | src/app/page.tsx:101-142 | the whole handler for a store outcome `storeOk`: the four outcomes above, one store call iff validation passes, flag down at the end; the new state is a press followed by a settlement in the event model |
| `FeatureForm.Update` | src/app/feature/page.tsx:20-22 | after `handleChange(id, value)` field `id` reads `value` and the other fields keep their values |
| `FeatureForm.Record` | src/app/feature/page.tsx:35-38 | the stored document carries exactly the three field values and `createdAt` |
| `FeatureForm.RejectedSubmit` | src/app/feature/page.tsx:27-30 | some field empty: status `{false, 'Please fill all fields.'}`, no document sent, nothing else changes |
| `FeatureForm.AcceptedSubmit` | src/app/feature/page.tsx:32-38 | all fields filled: exactly one document of the current fields is sent; flag up while it is awaited |
| `FeatureForm.SuccessfulSubmit` | src/app/feature/page.tsx:40-41 | success: `{true, 'Feature request sent! Thank you!'}`, every field `''`, flag down |
| `FeatureForm.FailedSubmit` | src/app/feature/page.tsx:42-46 | failure: `{false, 'Something went wrong. Try again.'}`, everything else as before the press |
| `FeatureForm.NoResendAfterSuccess` | src/app/feature/page.tsx:27-41 | after a successful submission the form is empty, so the next press sends nothing and shows the validation message |
| `FeatureForm.DarkModeExample` | src/app/feature/page.tsx:24-47 | `{Jo, jo@x.com, dark mode}` submitted successfully sends that one document, shows the thank-you message and resets the form |
| `FeatureForm.RunKeepsValid` | src/app/feature/page.tsx:32-46 | over any sequence of events, `isSubmitting` is up exactly while a store call is awaited |
| `FeatureForm.RequestsAreFilled` | src/app/feature/page.tsx:27-38 | no document the page ever sends has an empty field |
| `FeatureForm.OneRequestInFlight` | src/app/feature/page.tsx:154 | documents sent = store calls answered + the one still awaited |
| `FeatureForm.Filled` | src/app/feature/page.tsx:27 | the submit guard: name, email and feature all non-empty |
| `FeatureForm.AfterChange` | src/app/feature/page.tsx:20-22 | `handleChange` on the state: only the form changes, by `Update` |
| `FeatureForm.AfterSubmit` | src/app/feature/page.tsx:24-38 | the handler up to its `await`: the missing-fields status, or the flag up with the record of the current fields awaited |
| `FeatureForm.AfterSettle` | src/app/feature/page.tsx:40-46 | the handler after its `await`: thank-you status and blank form, or failure status; then flag down |
| `FeatureForm.Step` | src/app/feature/page.tsx:154 | one event: an edit, a press (ignored while the button is disabled), or the awaited call settling |
| `FeatureForm.Controller.constructor` | src/app/feature/page.tsx:11-18 | blank form, flag down, status `null` |
| `FeatureForm.Controller.HandleChange` | src/app/feature/page.tsx:20-22 | overwrites one field and nothing else |
| `FeatureForm.Controller.HandleSubmit` | src/app/feature/page.tsx:24-38 | validation failure: message, no store call; otherwise flag up and one `addDoc` with the current fields |
| `FeatureForm.Controller.Resolve` | src/app/feature/page.tsx:40-46 | success: thank-you message and blank form; failure: failure message, form kept; flag down in both |
| `FeatureForm.Controller.Submit` | src/app/feature/page.tsx:24-47 | the whole handler for a store outcome `storeOk`: validation message and no call, or one call followed by the success or failure outcome; flag down at the end; the new state is a press followed by a settlement in the event model |
| `Carousel.Clamp` | src/app/page.tsx:153-155 | the requested offset, clamped to the scrollable range: the reachable offset nearest to the one requested |
| `Carousel.NextPos` | src/app/page.tsx:152-156 | a firing sets the offset to 0 when `pos + clientWidth >= scrollWidth - 10`, otherwise to `pos + clientWidth/2` capped at the end; it never moves backwards except to wrap |
| `Carousel.AdvanceFromStart` | src/app/page.tsx:151-157 | from offset 0, the `k`-th firing before the end leaves the offset at `min(k * clientWidth/2, end)`, and no earlier offset is at the end |
| `Carousel.WrapsToStart` | src/app/page.tsx:152-153 | after `WrapTicks` firings the offset is at the end, and the next firing returns it to 0 |
| `Carousel.Periodic` | src/app/page.tsx:151-157 | from offset 0 the offsets repeat with period `WrapTicks + 1` |
| `Carousel.Half` | src/app/page.tsx:155 | `clientWidth / 2`, rounded down to whole pixels |
| `Carousel.AtEnd` | src/app/page.tsx:152 | the end test `scrollLeft + clientWidth >= scrollWidth - 10` |
| `Carousel.After` | src/app/page.tsx:151-157 | the offset after `n` firings of the interval callback |
| `Carousel.Start` | src/app/page.tsx:149-159 | `startAutoScroll`: unless hovering, a fresh interval id runs and is stored in `scrollInterval` |
| `Carousel.Mounted` | src/app/page.tsx:171-174 | the effect body with a container: listeners attached, not hovering, `startAutoScroll` run |
| `Carousel.Step` | src/app/page.tsx:151-180 | one event: an interval firing, pointer enter, pointer leave, the cleanup, or a scroll by the user |
| `Carousel.MountStartsOne` | src/app/page.tsx:171-174 | mounting attaches the listeners and starts exactly one interval |
| `Carousel.NoTickWhileHovering` | src/app/page.tsx:161-164 | while the pointer hovers no interval runs, so a firing changes nothing |
| `Carousel.RunKeepsOneInterval` | src/app/page.tsx:149-169 | with paired pointer events, exactly the interval in `scrollInterval` runs while not hovering, and none while hovering or after cleanup |
| `Carousel.HoverFreezes` | src/app/page.tsx:161-169 | from hovering, until the pointer leaves (and the user does not scroll), the offset does not change and no interval runs |
| `Carousel.UnmountStopsAll` | src/app/page.tsx:176-180 | the cleanup detaches the listeners and leaves no interval running |
| `Carousel.SilentAfterUnmount` | src/app/page.tsx:176-180 | after the cleanup, no event but a scroll by the user changes anything |
| `Carousel.UnpairedLeaveLeaks` | src/app/page.tsx:166-169 | a leave that no enter preceded starts a second interval; the next enter clears only the newer one, so the older one keeps moving the container while the pointer hovers, and the cleanup leaves it running as well |
| `Carousel.ScrollBox.ScrollTo` | src/app/page.tsx:153 | `scrollTo({left})` sets the offset to `left` clamped to the scrollable range |
| `Carousel.ScrollBox.ScrollBy` | src/app/page.tsx:155 | `scrollBy({left: d})` sets the offset to the old offset plus `d`, clamped |
| `Carousel.AutoScroll.Mount` | src/app/page.tsx:144-182 | the effect body: with a container, listeners attached and one interval started; without one, nothing runs |
| `Carousel.AutoScroll.StartAutoScroll` | src/app/page.tsx:149-159 | when not hovering, a fresh interval is started and remembered in `scrollInterval` |
| `Carousel.AutoScroll.ClearInterval` | src/app/page.tsx:163 | stops the interval named by the handle and nothing else |
| `Carousel.AutoScroll.IntervalFires` | src/app/page.tsx:151-157 | a running interval's callback moves the container as `NextPos` says; a cleared one does nothing |
| `Carousel.AutoScroll.HandleMouseEnter` | src/app/page.tsx:161-164 | hovering set, the interval in `scrollInterval` stopped |
| `Carousel.AutoScroll.HandleMouseLeave` | src/app/page.tsx:166-169 | hovering cleared, a fresh interval started and remembered |
| `Carousel.AutoScroll.Cleanup` | src/app/page.tsx:176-180 | listeners detached, the interval in `scrollInterval` stopped |

## Left out

- Markup, styling and animation (motion variants, background particles), the static content
  arrays, the mobile-menu toggle, the legal pages and the build configuration: they are
  presentation only.
- The document store's internals: `addDoc` is a request appended to a collection, and whether
  it succeeds is the parameter `ok`/`storeOk`. The document id it returns is only logged, and
  whether a failed call wrote anything is not modelled.
- `console.log` / `console.error` (logging only) and `e.preventDefault()` (browser navigation).
- The timestamp `new Date().toISOString()`: it is the parameter `createdAt`.
- The browser's own `required` check on the home page's inputs, including `phone`. The browser
  enforces it, not the handler.
- Carousel geometry:
  - Smooth scrolling is not modelled: a scroll reaches its target at once.
  - `Carousel.Half`: half of an odd `clientWidth` is rounded down, where the page scrolls by a
    fraction of a pixel.
  - Widths are fixed for the life of a `ScrollBox`: resizing or images loading are not modelled.
  - `Carousel.Clamp`, `Carousel.NextPos`, `Carousel.AdvanceFromStart`, `Carousel.WrapsToStart`,
    `Carousel.Periodic`: mandatory scroll snapping (`snap-x snap-mandatory` on the container,
    `snap-center` on each card) is not modelled. These give the offsets the code requests, clamped
    to the scrollable range, not the snap position the browser comes to rest on.
- Timer scheduling (the 4000 ms period) and the event loop: firings, pointer events, edits and
  store answers are discrete calls in sequence. Ordering that depends on timing is not modelled.
  This includes a second click landing before React renders the disabled button.
- React render batching and stale closures: each event sees the state left by the previous one.
  In the page, `handleSubmit` reads the field values of the render it belongs to, and the
  feature page's `handleChange` spreads the render-time `form`. Both are the same thing in a
  sequential run.
- Inputs whose `id` names no field: the field ids are the form's own. In JavaScript such an
  input would add a new key, but neither page renders one.
