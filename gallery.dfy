/**
 * The GalleryApp controller: the lightbox's navigation state and the overlay
 * chrome it drives, updated in place by the open, navigate, close and
 * load-completion handlers.
 */
module Gallery {
  import opened Wrappers
  import opened Images
  import opened Display
  import opened Navigation
  import opened Input

  const LoadFailedMessage := "Failed to load image"

  /** How `openModal` ends: normally, or by a TypeError on a missing section or an empty one. */
  datatype OpenOutcome = Opened | Threw

  class GalleryApp {
    /** The counter badge exists: it is created at start-up only if the modal is already in the page. */
    const hasCounter: bool

    var currentImages: seq<ImageRef>
    var currentImageIndex: int
    var isLoading: bool

    /** The modal carries its `show` class. */
    var shown: bool
    /** Page scrolling is locked (body overflow hidden). */
    var scrollLocked: bool
    /** Source and alt text of the image displayed in the modal. */
    var imageSrc: string
    var imageAlt: string
    /** The caption under the image and whether it is displayed. */
    var titleText: string
    var titleVisible: bool
    /** The error banner. */
    var errorText: string
    var errorVisible: bool
    /** Display of the previous and next buttons. */
    var buttonsVisible: bool
    /** The counter badge. */
    var counterText: string
    var counterVisible: bool
    /** The full-size loads started, in order, each with the descriptor its completion applies. */
    var requests: seq<ImageRef>

    function Nav(): (s: NavState)
      reads this
    {
      NavState(currentImages, currentImageIndex, isLoading)
    }

    ghost predicate Valid()
      reads this
    {
      InBounds(Nav()) && (counterVisible ==> hasCounter)
    }

    /** The buttons and the counter reflect the current list and position. */
    ghost predicate ChromeSynced()
      reads this
    {
      && buttonsVisible == (|currentImages| > 1)
      && counterVisible == (hasCounter && |currentImages| > 1)
      && (counterVisible ==> currentImageIndex >= 0 && counterText == CounterText(currentImageIndex, |currentImages|))
    }

    /** Start-up, with the chrome as the default modal markup leaves it. */
    constructor (modalAtInit: bool)
      ensures Valid()
      ensures hasCounter == modalAtInit
      ensures Nav() == NavState([], 0, false)
      ensures !shown && !scrollLocked && !errorVisible && !titleVisible && requests == []
    {
      hasCounter := modalAtInit;
      currentImages, currentImageIndex, isLoading := [], 0, false;
      shown, scrollLocked := false, false;
      imageSrc, imageAlt := "", "";
      titleText, titleVisible := "", false;
      errorText, errorVisible := "", false;
      buttonsVisible := true;
      counterText, counterVisible := "", modalAtInit;
      requests := [];
    }

    method ShowLoading(show: bool)
      modifies this`isLoading
      ensures isLoading == show
    {
      isLoading := show;
    }

    /** Starts the full-size load of `data`; its completion arrives later as LoadSucceeded or LoadFailed. */
    method LoadModalImage(data: ImageRef)
      modifies this`isLoading, this`requests
      ensures isLoading && requests == old(requests) + [data]
    {
      ShowLoading(true);
      requests := requests + [data];
    }

    /** The load of `data` completed and the 200 ms fade has passed: the image and caption are swapped in. */
    method LoadSucceeded(data: ImageRef)
      requires Valid()
      modifies this`imageSrc, this`imageAlt, this`titleText, this`titleVisible, this`isLoading
      ensures Valid() && Nav() == LoadCompleted(old(Nav()))
      ensures imageSrc == data.src && imageAlt == data.alt
      ensures titleText == TitleText(data) && titleVisible == TitleShown(data)
    {
      imageSrc := data.src;
      imageAlt := data.alt;
      titleText := if data.title != "" then data.title else data.alt;
      titleVisible := data.title != "";
      ShowLoading(false);
    }

    /** A load failed: loading ends, the previous image stays, and the error banner appears. */
    method LoadFailed()
      requires Valid()
      modifies this`isLoading, this`errorText, this`errorVisible
      ensures Valid() && Nav() == LoadCompleted(old(Nav()))
      ensures errorVisible && errorText == LoadFailedMessage
    {
      ShowLoading(false);
      ShowError(LoadFailedMessage);
    }

    method ShowError(message: string)
      modifies this`errorText, this`errorVisible
      ensures errorVisible && errorText == message
    {
      errorText := message;
      errorVisible := true;
    }

    /** The 3000 ms timer of an earlier error fires. */
    method ErrorDismissed()
      modifies this`errorVisible
      ensures !errorVisible
    {
      errorVisible := false;
    }

    method UpdateNavigationButtons()
      modifies this`buttonsVisible
      ensures buttonsVisible == (|currentImages| > 1)
    {
      buttonsVisible := |currentImages| > 1;
    }

    method UpdateImageCounter()
      requires Valid()
      modifies this`counterText, this`counterVisible
      ensures Valid()
      ensures counterVisible == (hasCounter && |currentImages| > 1)
      ensures counterVisible ==> counterText == CounterText(currentImageIndex, |currentImages|)
      ensures !counterVisible ==> counterText == old(counterText)
    {
      if hasCounter && |currentImages| > 1 {
        counterText := CounterText(currentImageIndex, |currentImages|);
        counterVisible := true;
      } else if hasCounter {
        counterVisible := false;
      }
    }

    /** The indices whose images are fetched ahead: the wrapped neighbours of the current one. */
    method PreloadAdjacentImages() returns (fetched: seq<nat>)
      requires Valid()
      ensures currentImages == [] ==> fetched == []
      ensures currentImages != [] ==> fetched == Neighbours(|currentImages|, currentImageIndex)
    {
      fetched := [];
      if |currentImages| == 0 {
        return;
      }
      var n := |currentImages|;
      var preloadIndexes := [currentImageIndex - 1, currentImageIndex + 1];
      for j := 0 to |preloadIndexes|
        invariant fetched == Kept(n, currentImageIndex, preloadIndexes[..j])
      {
        var index := preloadIndexes[j];
        if index < 0 {
          index := n - 1;
        }
        if index >= n {
          index := 0;
        }
        assert index == WrapIndex(preloadIndexes[j], n);
        if index != currentImageIndex {
          fetched := fetched + [index];
        }
        assert preloadIndexes[..j + 1][..j] == preloadIndexes[..j];
      }
      assert preloadIndexes[..2] == preloadIndexes;
    }

    /**
     * Opens the overlay on the image `imageSrc` of `section` (None for a card
     * outside any section). The list is rebuilt from the section's cards and
     * the index is the first card with that source, or 0.
     */
    method OpenModal(imageSrc: string, section: Option<seq<Card>>) returns (outcome: OpenOutcome, preloads: seq<nat>)
      requires Valid()
      modifies this`currentImages, this`currentImageIndex, this`isLoading, this`requests
      modifies this`shown, this`scrollLocked, this`buttonsVisible, this`counterText, this`counterVisible
      ensures Valid() && isLoading
      ensures outcome == Threw <==> section.None? || section.value == []
      ensures section.None? ==> currentImages == old(currentImages) && currentImageIndex == old(currentImageIndex)
      ensures section.Some? ==> currentImages == ImagesOf(section.value)
      ensures section.Some? ==> currentImageIndex == StartIndex(currentImages, imageSrc)
      ensures outcome == Threw ==>
        && preloads == []
        && unchanged(this`requests, this`shown, this`scrollLocked, this`buttonsVisible, this`counterText, this`counterVisible)
      ensures outcome == Opened ==>
        && requests == old(requests) + [currentImages[currentImageIndex]]
        && shown && scrollLocked
        && ChromeSynced() && (!counterVisible ==> counterText == old(counterText))
        && preloads == Neighbours(|currentImages|, currentImageIndex)
    {
      preloads := [];
      ShowLoading(true);
      if section.None? {
        // `section.querySelectorAll` on null throws
        return Threw, [];
      }
      currentImages := ImagesOf(section.value);
      currentImageIndex := FirstIndexOf(currentImages, imageSrc);
      if currentImageIndex == -1 {
        currentImageIndex := 0;
      }
      if |currentImages| == 0 {
        // loadModalImage(undefined) raises the loading flag again, then reading `src` of undefined throws
        ShowLoading(true);
        return Threw, [];
      }
      LoadModalImage(currentImages[currentImageIndex]);
      shown := true;
      scrollLocked := true;
      UpdateNavigationButtons();
      UpdateImageCounter();
      preloads := PreloadAdjacentImages();
      outcome := Opened;
    }

    /** Hides the overlay and clears the error banner; the navigation state is left as it is. */
    method CloseModal()
      requires Valid()
      modifies this`shown, this`scrollLocked, this`errorVisible
      ensures Valid()
      ensures !shown && !scrollLocked && !errorVisible
      ensures Nav() == old(Nav()) && requests == old(requests)
    {
      shown := false;
      scrollLocked := false;
      errorVisible := false;
    }

    /**
     * Steps by `direction` with wrap-around, unless there is no image or a
     * load is in flight, in which case nothing at all happens.
     */
    method NavigateImage(direction: int) returns (preloads: seq<nat>)
      requires Valid()
      modifies this`currentImageIndex, this`isLoading, this`requests
      modifies this`buttonsVisible, this`counterText, this`counterVisible
      ensures Valid()
      ensures Nav() == Navigated(old(Nav()), direction)
      ensures !Accepts(old(Nav())) ==> unchanged(this) && preloads == []
      ensures Accepts(old(Nav())) ==>
        && requests == old(requests) + [currentImages[currentImageIndex]]
        && ChromeSynced() && (!counterVisible ==> counterText == old(counterText))
        && preloads == Neighbours(|currentImages|, currentImageIndex)
    {
      if |currentImages| == 0 || isLoading {
        return [];
      }
      currentImageIndex := currentImageIndex + direction;
      if currentImageIndex < 0 {
        currentImageIndex := |currentImages| - 1;
      } else if currentImageIndex >= |currentImages| {
        currentImageIndex := 0;
      }
      var currentImage := currentImages[currentImageIndex];
      LoadModalImage(currentImage);
      UpdateNavigationButtons();
      UpdateImageCounter();
      preloads := PreloadAdjacentImages();
    }

    /** Carries out a command from the keyboard or a swipe. */
    method Execute(cmd: Command) returns (preloads: seq<nat>)
      requires Valid()
      modifies this`currentImageIndex, this`isLoading, this`requests
      modifies this`buttonsVisible, this`counterText, this`counterVisible
      modifies this`shown, this`scrollLocked, this`errorVisible
      ensures Valid()
      ensures cmd == Close ==>
        && !shown && !scrollLocked && !errorVisible
        && Nav() == old(Nav()) && requests == old(requests) && preloads == []
        && buttonsVisible == old(buttonsVisible) && counterText == old(counterText) && counterVisible == old(counterVisible)
      ensures cmd.Navigate? && !Accepts(old(Nav())) ==> unchanged(this) && preloads == []
      ensures cmd.Navigate? ==>
        && Nav() == Navigated(old(Nav()), cmd.direction)
        && shown == old(shown) && scrollLocked == old(scrollLocked) && errorVisible == old(errorVisible)
        && (Accepts(old(Nav())) ==> ChromeSynced() && (!counterVisible ==> counterText == old(counterText)))
      ensures old(ChromeSynced()) ==> ChromeSynced()
    {
      match cmd
      case Close =>
        CloseModal();
        preloads := [];
      case Navigate(d) =>
        preloads := NavigateImage(d);
    }

    /** The keydown handler: acts only while the overlay is shown. */
    method HandleKey(key: string) returns (prevented: bool, preloads: seq<nat>)
      requires Valid()
      modifies this`currentImageIndex, this`isLoading, this`requests
      modifies this`buttonsVisible, this`counterText, this`counterVisible
      modifies this`shown, this`scrollLocked, this`errorVisible
      ensures Valid()
      ensures prevented == (old(shown) && PreventsDefault(key))
      ensures !old(shown) || KeyCommand(key).None? ==> unchanged(this) && preloads == []
      ensures old(shown) && key == "Escape" ==>
        && !shown && !scrollLocked && !errorVisible
        && Nav() == old(Nav()) && requests == old(requests) && preloads == []
        && buttonsVisible == old(buttonsVisible) && counterText == old(counterText) && counterVisible == old(counterVisible)
      ensures old(shown) && PreventsDefault(key) && !Accepts(old(Nav())) ==> unchanged(this) && preloads == []
      ensures old(shown) && key == "ArrowLeft" ==>
        && shown && scrollLocked == old(scrollLocked) && errorVisible == old(errorVisible)
        && Nav() == Navigated(old(Nav()), -1)
      ensures old(shown) && (key == "ArrowRight" || key == " ") ==>
        && shown && scrollLocked == old(scrollLocked) && errorVisible == old(errorVisible)
        && Nav() == Navigated(old(Nav()), 1)
      ensures old(ChromeSynced()) ==> ChromeSynced()
    {
      prevented, preloads := false, [];
      if !shown {
        return;
      }
      match KeyCommand(key)
      case Some(cmd) =>
        prevented := PreventsDefault(key);
        preloads := Execute(cmd);
      case None =>
    }

    /**
     * The touchend handler: a recognised swipe steps or closes; a touch
     * without a recorded start and move changes nothing.
     */
    method OnTouchEnd(tracker: TouchTracker, endX: int, endY: int) returns (preloads: seq<nat>)
      requires Valid()
      modifies tracker
      modifies this`currentImageIndex, this`isLoading, this`requests
      modifies this`buttonsVisible, this`counterText, this`counterVisible
      modifies this`shown, this`scrollLocked, this`errorVisible
      ensures Valid()
      ensures old(tracker.startX == 0 || tracker.startY == 0 || !tracker.isDragging) ==>
        unchanged(this) && unchanged(tracker) && preloads == []
      ensures old(tracker.startX != 0 && tracker.startY != 0 && tracker.isDragging) ==>
        var s := ClassifySwipe(old(tracker.startX) - endX, old(tracker.startY) - endY);
        && tracker.startX == 0 && tracker.startY == 0 && !tracker.isDragging
        && (s.navigate.Some? ==>
              && shown == old(shown) && scrollLocked == old(scrollLocked) && errorVisible == old(errorVisible)
              && Nav() == Navigated(old(Nav()), s.navigate.value))
        && (s.navigate.Some? && !Accepts(old(Nav())) ==> unchanged(this) && preloads == [])
        && (s.close ==>
              && !shown && !scrollLocked && !errorVisible
              && Nav() == old(Nav()) && requests == old(requests) && preloads == []
              && buttonsVisible == old(buttonsVisible) && counterText == old(counterText)
              && counterVisible == old(counterVisible))
        && (s.navigate.None? && !s.close ==> unchanged(this))
      ensures old(ChromeSynced()) ==> ChromeSynced()
    {
      preloads := [];
      var swipe := tracker.TouchEnd(endX, endY);
      if swipe.Some? {
        var s := swipe.value;
        SwipeOutcomesExclusive(old(tracker.startX) - endX, old(tracker.startY) - endY);
        if s.navigate.Some? {
          preloads := NavigateImage(s.navigate.value);
        }
        if s.close {
          CloseModal();
        }
      }
    }
  }

  /** The counter texts of a three-image section. */
  lemma ThreeImageCounters()
    ensures CounterText(0, 3) == "1 / 3" && CounterText(1, 3) == "2 / 3" && CounterText(2, 3) == "3 / 3"
  {
  }

  /** A section of three cards with distinct sources, such as a.jpg, b.jpg, c.jpg. */
  predicate ThreeDistinct(cards: seq<Card>)
  {
    |cards| == 3 && cards[0].src != cards[1].src && cards[1].src != cards[2].src && cards[0].src != cards[2].src
  }

  /**
   * A client of the class: opening the middle image of three shows "2 / 3",
   * and ArrowRight pressed before the load completes is dropped.
   */
  method MiddleImageScenario(cards: seq<Card>)
    requires ThreeDistinct(cards)
  {
    ThreeImageCounters();
    var app := new GalleryApp(true);
    var outcome, preloads := app.OpenModal(cards[1].src, Some(cards));
    assert app.currentImages[1].src == cards[1].src;
    assert outcome == Opened && app.currentImageIndex == 1 && app.counterText == "2 / 3";
    var prevented;
    prevented, preloads := app.HandleKey("ArrowRight");
    assert prevented && app.currentImageIndex == 1;
  }

  /**
   * A client of the class: on the last of three images with no load in
   * flight, ArrowRight wraps to the first and shows "1 / 3"; a failed load
   * raises the banner and closing hides it, keeping the position.
   */
  method WrapAroundScenario(app: GalleryApp)
    requires app.Valid() && app.ChromeSynced() && app.hasCounter
    requires app.shown && !app.isLoading && |app.currentImages| == 3 && app.currentImageIndex == 2
    modifies app
  {
    ThreeImageCounters();
    var prevented, preloads := app.HandleKey("ArrowRight");
    assert app.currentImageIndex == 0 && app.counterText == "1 / 3";
    app.LoadFailed();
    assert app.errorVisible;
    app.CloseModal();
    assert !app.shown && !app.errorVisible && app.currentImageIndex == 0;
  }
}
