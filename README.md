# Hariom Steel Infra front end — interactive core

This project models the parts of the company's React site that hold state and
react to the visitor, and proves properties about them:

- **Navbar**: the navigation bar hides when the page scrolls down past 120 px
  and switches to a compact style past 20 px. It has a mobile menu with a
  three-address branch carousel, and a sign-in modal flag that a signed-out
  first visit sets by itself (tracked by the `hasVisitedBefore` entry of local
  storage). The page's scroll lock (`document.body.style.overflow`) follows
  the menu and that flag. No markup renders the flag, so a first visit locks
  the page with nothing on screen (see "## Findings").
- **Testimonials section**: rating statistics and a rating filter over the
  reviews. A slider over the filtered reviews advances every five seconds
  until the visitor uses the arrows. A review form puts a new review at the
  front of the list.
- **Product page**: each product card has an image carousel that advances
  every three seconds when the card has more than one image, plus its dot
  strip and a size preview ("+N more"). The page also has a product-detail
  modal.
- **Contact form**: five required fields. A simulated submission shows a
  spinner, then a success panel that clears the form. Two tabs switch
  between the form and the office map.

The modules follow that split:

- `Carousel` (carousel.dfy) holds JavaScript's truncating `%` and the
  wrap-around steps all three carousels use.
- `Navbar` (navbar.dfy), `Testimonials` (testimonials.dfy), `Product`
  (product.dfy) and `ContactForm` (contact_form.dfy) each model one
  component.

Each stateful component appears twice:

- **A snapshot datatype with one pure function per event.** These carry the
  lemmas: invariants kept over any run of events, inverse steps, and "nothing
  else changes".
- **A class with the same fields.** Each method performs one handler, effect
  or timer callback in place. Its `ensures` ties the new state to the
  snapshot function of the old state.

A timer or interval is modelled as a method. That method may be called only
while the timer is pending. The one exception is the testimonials toast timer
(`Testimonials.TestimonialsSection.ToastTimeout`), which may be called at any
time, because earlier timers are never cancelled.

## Model

| member | source | states |
|---|---|---|
| Carousel.JsRem | Frontend/src/pages/TestimonialsSection.jsx:101 | JavaScript `%` for a non-zero divisor: the result lies strictly between minus and plus the divisor's magnitude, has the dividend's sign, and differs from the dividend by a multiple of the divisor |
| Carousel.Next | Frontend/src/pages/TestimonialsSection.jsx:109-112 | `(prev + 1) % n` stays on a slide, moves to the following one and wraps from the last to the first |
| Carousel.Prev | Frontend/src/pages/TestimonialsSection.jsx:114-117 | `(prev - 1 + n) % n` stays on a slide, moves to the preceding one and wraps from the first to the last |
| Carousel.NextUndoesPrev | Frontend/src/pages/TestimonialsSection.jsx:109-117 | a step forward and a step back undo each other, in either order |
| Carousel.Advance | Frontend/src/pages/TestimonialsSection.jsx:99-106 | any number of interval ticks keeps the index on a slide |
| Carousel.AdvanceIsModular | Frontend/src/pages/TestimonialsSection.jsx:99-106 | `k` ticks from slide `i` reach slide `(i + k) mod n` |
| Carousel.FullRound | Frontend/src/pages/Product.jsx:567-573 | `n` ticks bring an `n`-slide carousel back to where it started |
| Navbar.Run | Frontend/src/common/Navbar.jsx:14-97 | every run of browser events from a state satisfying the invariant keeps the invariant: the address index points into the list, and the body lock equals "menu or modal open" while mounted and is released after unmount |
| Navbar.StepKeepsInv | Frontend/src/common/Navbar.jsx:31-97 | each scroll, click, key, address, auth-status or unmount event keeps the invariant |
| Navbar.InitialInv | Frontend/src/common/Navbar.jsx:15-21 | on mount the bar is visible, not compact, the menu and modal are closed, the first address is shown and the body is unlocked |
| Navbar.ScrollSample | Frontend/src/common/Navbar.jsx:31-44 | one scroll sample hides the bar exactly when the offset grew and exceeds 120, records the offset, and sets the compact style exactly when the offset exceeds 20 |
| Navbar.ScrollRunLastTwo | Frontend/src/common/Navbar.jsx:31-49 | after any run of scroll events, visibility, the remembered offset and the compact style depend only on the last two samples |
| Navbar.EscapeClosesOverlays | Frontend/src/common/Navbar.jsx:75-84 | Escape closes the menu, clears the sign-in modal flag and releases the lock without touching the address or visibility; any other key changes nothing |
| Navbar.OutsideClickClosesOnlyMenu | Frontend/src/common/Navbar.jsx:64-72 | a mousedown closes the menu exactly when it is open and the target is outside it and not in a button; the modal is never affected and the lock follows |
| Navbar.NavClickClosesMenu | Frontend/src/common/Navbar.jsx:115-128 | every navigation click leaves the menu closed and the modal as it was |
| Navbar.LockFollowsOverlays | Frontend/src/common/Navbar.jsx:86-97 | from mount, after any run of events, the body is locked exactly when the menu or modal is open while mounted, and unlocked once unmounted |
| Navbar.AddressCarousel | Frontend/src/common/Navbar.jsx:408-418 | the address arrows stay within the three addresses, undo each other and wrap at both ends |
| Navbar.AuthStatusEffect | Frontend/src/common/Navbar.jsx:51-62 | the first-visit effect sets the modal flag in sign-in mode, sets the visit flag and locks the body exactly when auth has loaded, nobody is signed in and the visit flag is absent; otherwise it changes nothing |
| Navbar.StepVisitFlag | Frontend/src/common/Navbar.jsx:51-62 | no event clears the visit flag, and an event that sets the modal flag by itself had the visit flag absent and sets it |
| Navbar.VisitFlagSticks | Frontend/src/common/Navbar.jsx:51-62 | once the visit flag is set it stays set over any run of events |
| Navbar.AutoOpenAtMostOnce | Frontend/src/common/Navbar.jsx:51-62 | over any run of events the modal flag is set by the effect at most once, and never when the visit flag was already set |
| Navbar.LockedUntilEscape | Frontend/src/common/Navbar.jsx:53-97 | while the modal flag is set, every event other than Escape and unmounting keeps the flag set and the page locked |
| Navbar.FirstVisitBlankLock | Frontend/src/common/Navbar.jsx:53-61 | a signed-out first visit locks the page while no rendered overlay is open, and the lock survives any events without Escape or unmounting |
| Navbar.LockImpliesVisibleOverlay | Frontend/src/common/Navbar.jsx:88-93 | with the sign-in modal rendered while its flag is set, the page is never locked without an overlay on screen, after any run of events from mount |
| Navbar.NavbarController.constructor | Frontend/src/common/Navbar.jsx:15-21 | mounting yields the initial state with the stored visit flag |
| Navbar.NavbarController.OverflowEffect | Frontend/src/common/Navbar.jsx:86-93 | the body is locked exactly when the menu or the modal is open; only the lock changes |
| Navbar.NavbarController.HandleScroll | Frontend/src/common/Navbar.jsx:31-44 | performs one scroll sample in place and keeps the invariant |
| Navbar.NavbarController.ToggleMenu | Frontend/src/common/Navbar.jsx:279 | flips the menu and re-syncs the lock |
| Navbar.NavbarController.CloseMenu | Frontend/src/common/Navbar.jsx:316 | closes the menu and re-syncs the lock |
| Navbar.NavbarController.HandleClickOutside | Frontend/src/common/Navbar.jsx:64-69 | the outside-click rule in place |
| Navbar.NavbarController.HandleEscKey | Frontend/src/common/Navbar.jsx:75-81 | the Escape rule in place |
| Navbar.NavbarController.HandleNavClick | Frontend/src/common/Navbar.jsx:115-128 | closes the menu and re-syncs the lock |
| Navbar.NavbarController.PreviousAddress | Frontend/src/common/Navbar.jsx:409 | steps the address carousel back, with wrap-around |
| Navbar.NavbarController.NextAddress | Frontend/src/common/Navbar.jsx:416 | steps the address carousel forward, with wrap-around |
| Navbar.NavbarController.FirstVisitEffect | Frontend/src/common/Navbar.jsx:51-62 | the first-visit effect in place, including the local-storage write |
| Navbar.NavbarController.Unmount | Frontend/src/common/Navbar.jsx:46-97 | unmounting releases the body lock and stops all listeners |
| Testimonials.Ratings | Frontend/src/pages/TestimonialsSection.jsx:87 | the list's ratings, position by position |
| Testimonials.TotalRating | Frontend/src/pages/TestimonialsSection.jsx:87 | with ratings from 0 to 5, `totalRating` lies between 0 and five times the number of reviews |
| Testimonials.CountRating | Frontend/src/pages/TestimonialsSection.jsx:89-91 | a per-rating count never exceeds the number of reviews |
| Testimonials.CountIsMultiplicity | Frontend/src/pages/TestimonialsSection.jsx:89-91 | the count of rating `k` is the number of times `k` occurs among the ratings |
| Testimonials.StarCountsBounded | Frontend/src/pages/TestimonialsSection.jsx:89-91 | the five-, four- and three-star counts add up to at most the number of reviews |
| Testimonials.TotalIsWeightedCount | Frontend/src/pages/TestimonialsSection.jsx:87-91 | with ratings 0 to 5, `totalRating` equals the star-weighted sum of the per-rating counts |
| Testimonials.AtLeast | Frontend/src/pages/TestimonialsSection.jsx:94-96 | the filter never lengthens the list and keeps exactly the reviews rated at least the threshold |
| Testimonials.AtLeastConcat | Frontend/src/pages/TestimonialsSection.jsx:94-96 | the filter keeps order: filtering a concatenation filters each part |
| Testimonials.AtLeastKeepsAll | Frontend/src/pages/TestimonialsSection.jsx:94-96 | the filter returns the list unchanged if and only if every review passes |
| Testimonials.Filtered | Frontend/src/pages/TestimonialsSection.jsx:94-96 | "All Reviews" (or any filter value up to 0) shows the whole list; a positive choice shows exactly the reviews rated at least that many stars, and never more reviews than the list holds |
| Testimonials.FilteredPrepend | Frontend/src/pages/TestimonialsSection.jsx:94-96 | a review added at the front appears at the front of every filtered view that admits it, and the rest of the view is unchanged |
| Testimonials.FiveStarShown | Frontend/src/pages/TestimonialsSection.jsx:249-259 | with a five-star review present, none of the three filter choices shows an empty slider |
| Testimonials.InitialInv | Frontend/src/pages/TestimonialsSection.jsx:6-84 | the initial reviews and state satisfy the invariant: filter choice valid, a five-star review present, ratings 0 to 5, ids 1..n distinct, and the index on a shown slide |
| Testimonials.NewTestimonial | Frontend/src/pages/TestimonialsSection.jsx:129-134 | a submitted review carries the new id, the date, and the form's name, position, company, rating and quote |
| Testimonials.WithField | Frontend/src/pages/TestimonialsSection.jsx:150-153 | typing sets the named input and leaves the others and the rating unchanged |
| Testimonials.SlideNavigation | Frontend/src/pages/TestimonialsSection.jsx:109-117 | the arrows keep the invariant, stop auto-play, undo each other and wrap at both ends |
| Testimonials.AutoPlay | Frontend/src/pages/TestimonialsSection.jsx:99-106 | any number of auto-play ticks keeps the invariant and the interval, and leaves the shown list unchanged |
| Testimonials.AutoPlayAdvances | Frontend/src/pages/TestimonialsSection.jsx:99-106 | `k` ticks advance the index `k` slides with wrap-around and change nothing else |
| Testimonials.FilterSelection | Frontend/src/pages/TestimonialsSection.jsx:256-259 | a filter button keeps the invariant and shows its reviews from the first |
| Testimonials.PrependKeepsList | Frontend/src/pages/TestimonialsSection.jsx:129-136 | a review whose id is one more than the list length can go in front: five-star presence, rating range and distinct ids survive, and no old review has the new id |
| Testimonials.SubmitKeepsInv | Frontend/src/pages/TestimonialsSection.jsx:120-145 | submitting keeps the invariant |
| Testimonials.SubmitEffect | Frontend/src/pages/TestimonialsSection.jsx:120-145 | submitting puts exactly one new review, with a fresh id, in front of the untouched old list; it closes the form, shows the toast, empties the form, and keeps the index and the filter |
| Testimonials.FormEdits | Frontend/src/pages/TestimonialsSection.jsx:120-157 | typing and picking a star keep the invariant; typing keeps a picked star; the next submitted review carries the star picked last, or the form's old rating if none was picked |
| Testimonials.TestimonialsSection.constructor | Frontend/src/pages/TestimonialsSection.jsx:69-83 | mounting with the initial reviews yields the initial state, which satisfies the invariant |
| Testimonials.TestimonialsSection.AutoPlayTick | Frontend/src/pages/TestimonialsSection.jsx:99-106 | one interval tick in place |
| Testimonials.TestimonialsSection.NextSlide | Frontend/src/pages/TestimonialsSection.jsx:109-112 | `nextSlide` in place |
| Testimonials.TestimonialsSection.PrevSlide | Frontend/src/pages/TestimonialsSection.jsx:114-117 | `prevSlide` in place |
| Testimonials.TestimonialsSection.SelectSlide | Frontend/src/pages/TestimonialsSection.jsx:355 | a dot jumps to its slide and leaves auto-play as it was |
| Testimonials.TestimonialsSection.SelectFilter | Frontend/src/pages/TestimonialsSection.jsx:256-259 | a filter button sets the filter and resets the index |
| Testimonials.TestimonialsSection.OpenForm | Frontend/src/pages/TestimonialsSection.jsx:270 | opens the form and changes nothing else |
| Testimonials.TestimonialsSection.CancelForm | Frontend/src/pages/TestimonialsSection.jsx:443 | closes the form and keeps what was typed |
| Testimonials.TestimonialsSection.HandleSubmit | Frontend/src/pages/TestimonialsSection.jsx:120-145 | `handleSubmit` in place |
| Testimonials.TestimonialsSection.ToastTimeout | Frontend/src/pages/TestimonialsSection.jsx:147 | the toast timer hides the toast and changes nothing else |
| Testimonials.TestimonialsSection.HandleChange | Frontend/src/pages/TestimonialsSection.jsx:150-153 | `handleChange` in place: the new state is `OnFieldChange` of the old one |
| Testimonials.TestimonialsSection.HandleRatingChange | Frontend/src/pages/TestimonialsSection.jsx:155-157 | a star button sets the rating and changes nothing else: the new state is `OnRatingChange` of the old one |
| Product.PreviewOf | Frontend/src/pages/Product.jsx:351-360 | the card lists a prefix of at most four sizes, all of them when there are fewer than four, shows "+N more" exactly when some are hidden, and N is positive and equals the number hidden |
| Product.Dots | Frontend/src/pages/Product.jsx:582-590 | no dots for at most one image, otherwise one per image, lit exactly at the current index |
| Product.ExactlyOneDot | Frontend/src/pages/Product.jsx:582-590 | with several images and the index on an image, exactly one dot is lit and it is the current image's |
| Product.ProductImageCarousel.constructor | Frontend/src/pages/Product.jsx:565-566 | a card's carousel starts on its first image |
| Product.ProductImageCarousel.Tick | Frontend/src/pages/Product.jsx:567-573 | an interval tick, possible only with more than one image, moves to the next image and wraps after the last |
| Product.ProductImageCarousel.Current | Frontend/src/pages/Product.jsx:577 | the displayed image is the one at the index; with no images there is none |
| Product.CardRound | Frontend/src/pages/Product.jsx:567-573 | `k` ticks show image `(i + k) mod n`, and a full round returns to the start |
| Product.ModalProduct | Frontend/src/pages/Product.jsx:438 | the modal shows a product exactly when the flag is set and a product is selected, and it shows the selected one |
| Product.ViewAndClose | Frontend/src/pages/Product.jsx:279-282 | "View Details" opens the modal on that product; closing hides it and keeps the selection |
| Product.FlagImpliesSelection | Frontend/src/pages/Product.jsx:276-282 | from any state where the flag implies a selection, after any clicks the modal is shown exactly when the flag is set |
| Product.InitialModalHidden | Frontend/src/pages/Product.jsx:276-277 | the page starts with the modal hidden, and from there the flag alone decides whether it is shown |
| Product.ProductPage.constructor | Frontend/src/pages/Product.jsx:276-277 | no product selected and the modal hidden |
| Product.ProductPage.ViewProductDetail | Frontend/src/pages/Product.jsx:279-282 | selects the product and shows it in the modal |
| Product.ProductPage.CloseDetail | Frontend/src/pages/Product.jsx:448 | hides the modal and keeps the selection |
| ContactForm.WithField | Frontend/src/pages/ContactForm.jsx:20-23 | typing sets the named field and leaves the other four unchanged |
| ContactForm.StepPhase | Frontend/src/pages/ContactForm.jsx:25-45 | every possible event keeps "not loading and submitted at once"; the submission phase either stays or moves one step along idle, loading, submitted, idle, and it moves exactly on a submit or a timer |
| ContactForm.RunKeepsInv | Frontend/src/pages/ContactForm.jsx:25-45 | loading and success are never both on, after any run of events |
| ContactForm.InitialShowsForm | Frontend/src/pages/ContactForm.jsx:8-18 | the section starts idle on the form tab with the submit button enabled |
| ContactForm.SubmissionCycle | Frontend/src/pages/ContactForm.jsx:25-45 | submit, first timer, second timer: the spinner disables the button, the success panel replaces the form, and the section returns to idle with every field empty on the same tab, where another submit is refused |
| ContactForm.RefillBeforeResubmit | Frontend/src/pages/ContactForm.jsx:283-355 | a field left empty stays empty until it is typed into, and until then no submit gets through |
| ContactForm.TabSwitch | Frontend/src/pages/ContactForm.jsx:225-249 | a tab changes only the tab; the map tab hides both the form and the success panel; switching back restores the state |
| ContactForm.ContactSection.constructor | Frontend/src/pages/ContactForm.jsx:8-18 | the initial state: empty fields, idle, form tab |
| ContactForm.ContactSection.HandleChange | Frontend/src/pages/ContactForm.jsx:20-23 | `handleChange` in place |
| ContactForm.ContactSection.HandleSubmit | Frontend/src/pages/ContactForm.jsx:25-28 | a submit is reachable only through the enabled button with every field filled in; it starts loading |
| ContactForm.ContactSection.LoadingTimerFires | Frontend/src/pages/ContactForm.jsx:30-32 | the first timer ends loading and shows the success panel |
| ContactForm.ContactSection.SuccessTimerFires | Frontend/src/pages/ContactForm.jsx:34-43 | the second timer hides the panel and empties every field |
| ContactForm.ContactSection.SetActiveTab | Frontend/src/pages/ContactForm.jsx:225-235 | a tab button selects its tab |
| ContactForm.ContactSection.TabBody | Frontend/src/pages/ContactForm.jsx:247-269 | the tab body renders the form exactly when `FormShown` holds, the success panel exactly when `SuccessShown` holds, and the map exactly on the map tab; these are the predicates the submission and tab lemmas are about |

## Findings

| source | as written | input that shows it | evidently intended | confidence | as-written member | corrected member |
|---|---|---|---|---|---|---|
| Frontend/src/common/Navbar.jsx:53-61, 88-93 | a signed-out first visit sets `showAuthModal`, which locks the page's scrolling, but no markup renders a modal for it | auth loaded, nobody signed in, no `hasVisitedBefore` entry: the page cannot scroll, nothing is on screen, and only Escape releases it | the sign-in modal is rendered while `showAuthModal` holds, so the lock always comes with an overlay the visitor can close | medium, not executed | Navbar.FirstVisitBlankLock, Navbar.LockedUntilEscape | Navbar.LockImpliesVisibleOverlay (over Navbar.OverlayOnScreen) |

## Left out

- Floating-point display values are not modelled: the testimonials' `averageRating` with `toFixed(1)`, the distribution bar percentages, and the product stars drawn with `Math.floor`. The integer totals and counts they are built from are modelled.
- The product stock badge and the WhatsApp link (`encodeURIComponent` of the message) are markup formatting and are not modelled.
- Timers and intervals are not modelled as time. Each callback is a method or event that may occur while it is pending.
- The 50 ms `window.scrollTo` that `handleNavClick` schedules is not modelled as its own step. The page movement it causes reaches the bar as ordinary scroll events.
- The Navbar's `openAuthModal` (Frontend/src/common/Navbar.jsx:130-133) is declared but never called, so no event reaches it.
- The authentication provider is not modelled; its `isLoaded` flag and whether a user is signed in are inputs of the first-visit effect. Route changes, `useLocation` and the link targets are not modelled either.
- Only the `hasVisitedBefore` key of local storage and the `overflow` style of the body are modelled, as fields; no other browser state is.
- Testimonials.IsInitialList: the six initial reviews are fixed by their ids and ratings only. Their names, companies, portraits, quotes and dates are text that no handler inspects.
- Testimonials.TestimonialsSection.HandleSubmit: the review form's "Submit Review" button sits in a plain `div`, not in a `form`, and nothing binds `handleSubmit` to it, so in the page as written a visitor cannot reach the submission. It is modelled as the handler it is. The browser's `required` check does not apply to that form for the same reason.
- Testimonials.TestimonialsSection.ToastTimeout: the toast timer is not cancelled on a second submission, so an earlier timer can hide a later toast early. The model lets the timeout happen at any time, which covers this.
- ContactForm.AllFilled: the browser's `required` check is modelled as "no field empty". The format check of the e-mail input is not modelled.
- Carousel.JsRem: JavaScript returns NaN for `% 0`. No modelled call can divide by zero: the testimonials slider is never empty, the product interval exists only with more than one image, and the address list has three entries. So the divisor is required to be non-zero.
- Product.ProductImageCarousel: the card's images are fixed for the card's lifetime, so re-running the interval effect on a new `images` array is not modelled.
- Product.ProductImageCarousel.Tick: when the interval is not scheduled there is no tick, so no contract is stated for that case.
- Updates to a component after it unmounts (pending timers of the contact form and the testimonials toast) are not modelled. React drops them.
- The Navbar's hide-on-scroll threshold is 120 px and its compact-style threshold is 20 px (Frontend/src/common/Navbar.jsx:33, 44). The 10 px threshold of the page layout (Frontend/src/App.jsx:40) belongs to App.jsx, which is not part of this model. The Navbar has no resize handler, so the model has none either.
- Scroll offsets: browsers report `window.scrollY` as a fractional number, and the model takes each sample as an `int`. No lemma depends on the offsets being whole.
- App.jsx, main.jsx (routing and bootstrapping), Logo.jsx and DreamHome.jsx (static content) are not part of this model. The commented-out earlier drafts at the end of Navbar.jsx, Product.jsx and ContactForm.jsx are not modelled either.
