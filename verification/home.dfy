/**
 * The home page: the search box's animated placeholder, which types out one of five phrases,
 * pauses, deletes it and moves on to the next, and the list of listings shown, built from the
 * built-in listings followed by those fetched from the store.
 */
module Home {
  import opened Wrappers
  import opened Geo
  import opened Records
  import opened MachineryDetail

  const SEARCH_PHRASES: seq<string> := [
    "Search for Tractors near me...",
    "Search for Harvesters near me...",
    "Search for Planters near me...",
    "Search for Sprayers near me...",
    "Search for Ploughs near me..."
  ]

  /** Delay before the first tick, in milliseconds. */
  const INITIAL_TYPING_SPEED := 80
  /** Delay between ticks while typing. */
  const TYPING_SPEED := 50
  /** Delay between ticks while deleting. */
  const DELETING_SPEED := 25

  /**
   * `phrases[loopNum % phrases.length]`: the index is always in range. The typing machine is
   * stated for any non-empty phrase list; the page runs it on `SEARCH_PHRASES`.
   */
  function Phrase(phrases: seq<string>, loopNum: nat): (r: string)
    requires |phrases| > 0
    ensures 0 <= loopNum % |phrases| < |phrases| && r == phrases[loopNum % |phrases|]
    ensures r in phrases
  {
    phrases[loopNum % |phrases|]
  }

  /** On the page there are five phrases, and tick `loopNum` types phrase `loopNum % 5`. */
  lemma PagePhrase(loopNum: nat)
    ensures |SEARCH_PHRASES| == 5
    ensures Phrase(SEARCH_PHRASES, loopNum) == SEARCH_PHRASES[loopNum % 5]
  {
  }

  function Clamp(x: int, len: nat): (r: nat)
    ensures r <= len
    ensures 0 <= x <= len ==> r == x
  {
    if x < 0 then 0 else if x > len then len else x
  }

  /** JavaScript's `s.substring(start, end)`: both ends clamped to the string, swapped when reversed. */
  function Substring(s: string, start: int, end: int): (r: string)
    ensures |r| <= |s|
    ensures 0 <= start <= end <= |s| ==> r == s[start..end]
    ensures 0 <= end <= start <= |s| ==> r == s[end..start]
    ensures start <= 0 && end <= 0 ==> r == ""
    ensures start >= |s| && end >= |s| ==> r == ""
  {
    var a, b := Clamp(start, |s|), Clamp(end, |s|);
    if a <= b then s[a..b] else s[b..a]
  }

  /** `s.substring(0, k)` is the prefix of length `k`, clamped, so a negative `k` gives the empty string. */
  lemma SubstringFromZero(s: string, k: int)
    ensures Substring(s, 0, k) == s[..Clamp(k, |s|)]
    ensures Substring(s, 0, k) <= s
    ensures k <= 0 ==> Substring(s, 0, k) == ""
  {
  }

  /**
   * The placeholder's state; `pausePending` records that the 1500 ms timer that switches to
   * deleting has been started and has not fired yet.
   */
  datatype Typing = Typing(placeholder: string, isDeleting: bool, loopNum: nat, typingSpeed: nat,
                           pausePending: bool)

  const INITIAL_TYPING := Typing("", false, 0, INITIAL_TYPING_SPEED, false)

  /**
   * The placeholder is always a prefix of the current phrase, and the pause timer runs only
   * while typing with the whole phrase shown.
   */
  predicate Valid(phrases: seq<string>, t: Typing)
    requires |phrases| > 0
    ensures Valid(phrases, t) ==> |t.placeholder| <= |Phrase(phrases, t.loopNum)|
    ensures Valid(phrases, t) && t.pausePending ==> !t.isDeleting
  {
    t.placeholder <= Phrase(phrases, t.loopNum) &&
    (t.pausePending ==> !t.isDeleting && t.placeholder == Phrase(phrases, t.loopNum))
  }

  lemma InitialValid(phrases: seq<string>)
    requires |phrases| > 0
    ensures Valid(phrases, INITIAL_TYPING)
  {
  }

  /**
   * `handleTyping`: one character more or less of the current phrase; the next delay is 25 ms
   * after a deleting tick and 50 ms after a typing tick. A typing tick on the full phrase starts
   * the pause timer; a deleting tick on the empty placeholder goes back to typing the next phrase.
   */
  function NextTyping(phrases: seq<string>, t: Typing): (r: Typing)
    requires |phrases| > 0
    ensures r.typingSpeed == (if t.isDeleting then DELETING_SPEED else TYPING_SPEED)
    ensures r.placeholder <= Phrase(phrases, t.loopNum)
    ensures t.isDeleting && t.placeholder == "" ==> !r.isDeleting && r.loopNum == t.loopNum + 1
    ensures !(t.isDeleting && t.placeholder == "") ==> r.isDeleting == t.isDeleting && r.loopNum == t.loopNum
  {
    var full := Phrase(phrases, t.loopNum);
    var placeholder := if t.isDeleting then Substring(full, 0, |t.placeholder| - 1)
                       else Substring(full, 0, |t.placeholder| + 1);
    var speed := if t.isDeleting then DELETING_SPEED else TYPING_SPEED;
    SubstringFromZero(full, if t.isDeleting then |t.placeholder| - 1 else |t.placeholder| + 1);
    if !t.isDeleting && t.placeholder == full then
      Typing(placeholder, false, t.loopNum, speed, true)
    else if t.isDeleting && t.placeholder == "" then
      Typing(placeholder, false, t.loopNum + 1, speed, t.pausePending)
    else
      Typing(placeholder, t.isDeleting, t.loopNum, speed, t.pausePending)
  }

  /** The pause timer fires: `setIsDeleting(true)`. */
  function AfterPause(t: Typing): (r: Typing)
    ensures r.isDeleting ==> t.isDeleting || t.pausePending
    ensures !r.pausePending
  {
    if t.pausePending then t.(isDeleting := true, pausePending := false) else t
  }

  /** Deletion is switched on only once the whole phrase is displayed. */
  lemma DeletionStartsOnFullPhrase(phrases: seq<string>, t: Typing)
    requires |phrases| > 0
    requires Valid(phrases, t) && !t.isDeleting
    ensures AfterPause(t).isDeleting ==> t.placeholder == Phrase(phrases, t.loopNum)
    ensures Valid(phrases, AfterPause(t))
  {
  }

  /** Every tick keeps the placeholder a prefix of the current phrase. */
  lemma TickKeepsValid(phrases: seq<string>, t: Typing)
    requires |phrases| > 0
    requires Valid(phrases, t)
    ensures Valid(phrases, NextTyping(phrases, t))
  {
    var full := Phrase(phrases, t.loopNum);
    if t.isDeleting && t.placeholder == "" {
      SubstringFromZero(full, -1);
    } else if !t.isDeleting {
      SubstringFromZero(full, |t.placeholder| + 1);
    }
  }

  /** A typing tick adds exactly the next character of the phrase, or nothing once it is complete. */
  lemma TypingTickAddsOneCharacter(phrases: seq<string>, t: Typing)
    requires |phrases| > 0
    requires Valid(phrases, t) && !t.isDeleting
    ensures var full := Phrase(phrases, t.loopNum);
      NextTyping(phrases, t).placeholder ==
        if t.placeholder == full then full else t.placeholder + [full[|t.placeholder|]]
  {
    var full := Phrase(phrases, t.loopNum);
    SubstringFromZero(full, |t.placeholder| + 1);
    if t.placeholder != full {
      assert |t.placeholder| < |full|;
      assert full[..|t.placeholder| + 1] == full[..|t.placeholder|] + [full[|t.placeholder|]];
    }
  }

  /** A deleting tick removes exactly the last character, and leaves an empty placeholder empty. */
  lemma DeletingTickRemovesOneCharacter(phrases: seq<string>, t: Typing)
    requires |phrases| > 0
    requires Valid(phrases, t) && t.isDeleting
    ensures NextTyping(phrases, t).placeholder ==
      if t.placeholder == "" then "" else t.placeholder[..|t.placeholder| - 1]
  {
    SubstringFromZero(Phrase(phrases, t.loopNum), |t.placeholder| - 1);
  }

  /** The state after `n` ticks. */
  function Ticks(phrases: seq<string>, t: Typing, n: nat): Typing
    requires |phrases| > 0
    decreases n
  {
    if n == 0 then t else Ticks(phrases, NextTyping(phrases, t), n - 1)
  }

  /** One more tick after `n` ticks is `n + 1` ticks. */
  lemma {:induction false} TicksThenOne(phrases: seq<string>, t: Typing, n: nat)
    requires |phrases| > 0
    ensures Ticks(phrases, t, n + 1) == NextTyping(phrases, Ticks(phrases, t, n))
    decreases n
  {
    if n > 0 {
      TicksThenOne(phrases, NextTyping(phrases, t), n - 1);
    }
  }

  /** One typing tick before the phrase is complete: still typing the same phrase, one character longer. */
  lemma TypingStep(phrases: seq<string>, s: Typing)
    requires |phrases| > 0
    requires Valid(phrases, s) && !s.isDeleting && |s.placeholder| < |Phrase(phrases, s.loopNum)|
    ensures var r := NextTyping(phrases, s);
      r.placeholder == Phrase(phrases, s.loopNum)[..|s.placeholder| + 1] &&
      !r.isDeleting && r.loopNum == s.loopNum && Valid(phrases, r)
  {
    var full := Phrase(phrases, s.loopNum);
    TickKeepsValid(phrases, s);
    TypingTickAddsOneCharacter(phrases, s);
    assert s.placeholder == full[..|s.placeholder|];
    assert full[..|s.placeholder| + 1] == full[..|s.placeholder|] + [full[|s.placeholder|]];
  }

  /** `n` typing ticks show `n` more characters of the phrase, as long as it is not complete. */
  lemma {:induction false} TypesPhrase(phrases: seq<string>, t: Typing, n: nat)
    requires |phrases| > 0
    requires Valid(phrases, t) && !t.isDeleting
    requires |t.placeholder| + n <= |Phrase(phrases, t.loopNum)|
    ensures var r := Ticks(phrases, t, n);
      r.placeholder == Phrase(phrases, t.loopNum)[..|t.placeholder| + n] &&
      !r.isDeleting && r.loopNum == t.loopNum && Valid(phrases, r)
    decreases n
  {
    if n == 0 {
      assert t.placeholder == Phrase(phrases, t.loopNum)[..|t.placeholder|];
    } else {
      TypingStep(phrases, t);
      TypesPhrase(phrases, NextTyping(phrases, t), n - 1);
    }
  }

  /** One deleting tick on a non-empty placeholder: still deleting the same phrase, one character shorter. */
  lemma DeletingStep(phrases: seq<string>, s: Typing)
    requires |phrases| > 0
    requires Valid(phrases, s) && s.isDeleting && |s.placeholder| > 0
    ensures var r := NextTyping(phrases, s);
      r.placeholder == s.placeholder[..|s.placeholder| - 1] &&
      r.isDeleting && r.loopNum == s.loopNum && Valid(phrases, r)
  {
    TickKeepsValid(phrases, s);
    DeletingTickRemovesOneCharacter(phrases, s);
  }

  /** From a deleting state, `n` ticks remove the last `n` characters. */
  lemma {:induction false} DeletesPhrase(phrases: seq<string>, t: Typing, n: nat)
    requires |phrases| > 0
    requires Valid(phrases, t) && t.isDeleting
    requires n <= |t.placeholder|
    ensures var r := Ticks(phrases, t, n);
      r.placeholder == t.placeholder[..|t.placeholder| - n] &&
      r.isDeleting && r.loopNum == t.loopNum && Valid(phrases, r)
    decreases n
  {
    if n > 0 {
      DeletingStep(phrases, t);
      var s := NextTyping(phrases, t);
      DeletesPhrase(phrases, s, n - 1);
      assert s.placeholder[..|s.placeholder| - (n - 1)] == t.placeholder[..|t.placeholder| - n];
    }
  }

  /**
   * One full cycle: from an empty placeholder, typing the whole phrase and one more tick start
   * the pause; when it ends, deleting the phrase and one more tick leave an empty placeholder
   * typing the next phrase.
   */
  lemma CycleMovesToNextPhrase(phrases: seq<string>, t: Typing)
    requires |phrases| > 0
    requires Valid(phrases, t) && !t.isDeleting && t.placeholder == ""
    ensures var full := Phrase(phrases, t.loopNum);
      var paused := Ticks(phrases, t, |full| + 1);
      paused.placeholder == full && paused.pausePending &&
      var next := Ticks(phrases, AfterPause(paused), |full| + 1);
      next.placeholder == "" && !next.isDeleting && next.loopNum == t.loopNum + 1 && Valid(phrases, next)
  {
    var full := Phrase(phrases, t.loopNum);
    TypesPhrase(phrases, t, |full|);
    var typed := Ticks(phrases, t, |full|);
    TicksThenOne(phrases, t, |full|);
    TickKeepsValid(phrases, typed);
    TypingTickAddsOneCharacter(phrases, typed);
    var paused := Ticks(phrases, t, |full| + 1);
    var deleting := AfterPause(paused);
    assert deleting.isDeleting && deleting.placeholder == full && Valid(phrases, deleting);
    DeletesPhrase(phrases, deleting, |full|);
    var emptied := Ticks(phrases, deleting, |full|);
    TicksThenOne(phrases, deleting, |full|);
    TickKeepsValid(phrases, emptied);
    DeletingTickRemovesOneCharacter(phrases, emptied);
  }

  // ---------------------------------------------------------------------------------------
  // The listings

  /** The built-in listings, with their images named by asset file. */
  const MACHINERY_DATA: seq<Machine> := [
    Machine("1", "John Deere 5050D", "Tractor", "tractor_hero.png", "4.8", "₹1,200",
            Some("High power, low fuel consumption tractor."), "Ramesh Kumar",
            "https://i.pravatar.cc/150?img=11", Some("8"), Some("245"), Some((20.0112, 73.7902)),
            Some(["tractor_hero.png", "tractor_side.png", "tractor_front.png", "tractor_back.png"])),
    Machine("2", "Combine Harvester X9", "Harvester", "harvester_hero.png", "4.9", "₹4,500",
            Some("Efficient grain harvesting with max capacity."), "Suresh Singh",
            "https://i.pravatar.cc/150?img=12", Some("12"), Some("189"), Some((19.9975, 73.7898)),
            Some(["harvester_hero.png", "harvester_side.png", "harvester_front.png", "harvester_back.png"])),
    Machine("3", "Precision Planter 12", "Planter", "planter_hero.png", "4.7", "₹1,500",
            Some("Accurate seed placement for higher yields."), "Anita Devi",
            "https://i.pravatar.cc/150?img=5", Some("6"), Some("156"), Some((19.9615, 73.7897)),
            Some(["planter_hero.png", "planter_side.png", "planter_rear.png"])),
    Machine("4", "Mega Sprayer 5000", "Sprayer", "sprayer_hero.png", "4.6", "₹1,800",
            Some("Wide coverage crop protection system."), "Vikram Patel",
            "https://i.pravatar.cc/150?img=13", Some("7"), Some("203"), Some((20.0359, 73.7721)),
            Some(["sprayer_hero.png", "sprayer_side.png", "sprayer_boom.png"])),
    Machine("5", "Hydraulic Plough 5F", "Plough", "plough_hero.png", "4.8", "₹1,200",
            Some("Deep tillage for superior soil preparation."), "Rajesh Gupta",
            "https://i.pravatar.cc/150?img=68", Some("10"), Some("178"), Some((19.9872, 73.8315)),
            Some(["plough_hero.png", "plough_side.png", "plough_rear.png"])),
    Machine("6", "Rotary Tiller 6ft", "Others", "tiller_side.png", "4.5", "₹1,000",
            Some("Perfect for soil pulverization."), "Sunita Sharma",
            "https://i.pravatar.cc/150?img=9", Some("5"), Some("134"), Some((20.0089, 73.7654)),
            Some(["tiller_side.png", "tiller_rear.png"]))
  ]

  /** Every built-in listing opens at its own position with a gallery of at least two images. */
  lemma BuiltInListingsOpenInPlace()
    ensures forall i :: 0 <= i < |MACHINERY_DATA| ==>
      var m := MACHINERY_DATA[i];
      m.location.Some? && MachineryLocation(m.location) == FromLatFirst(m.location.value) &&
      |InitialGallery(m.gallery, m.image)| >= 2
  {
  }

  /** `[...machineryData, ...products]`: the built-in listings, then the fetched ones, each in order. */
  function AllMachinery(fetched: seq<Machine>): (r: seq<Machine>)
    ensures |r| == |MACHINERY_DATA| + |fetched|
    ensures forall i :: 0 <= i < |MACHINERY_DATA| ==> r[i] == MACHINERY_DATA[i]
    ensures forall j :: 0 <= j < |fetched| ==> r[|MACHINERY_DATA| + j] == fetched[j]
  {
    MACHINERY_DATA + fetched
  }

  /** The formatting of one fetched product as a listing; `show` renders the price as text. */
  function FormatProduct(p: ProductRow, show: real -> string): (r: Machine)
    ensures r.id == p.id && r.title == p.name && r.kind == p.category && r.image == p.imageUrl
    ensures r.desc == p.description && r.gallery == p.galleryUrls
    ensures r.rating == "New" && |r.price| > 0 && r.price[0] == '₹' && r.price[1..] == show(p.pricePerHour)
    ensures r.location.Some? && FromLatFirst(r.location.value) == LatLng(p.lat, p.lng)
    ensures r.ownerExperience.None? && r.totalRents.None?
  {
    Machine(p.id, p.name, p.category, p.imageUrl, "New", "₹" + show(p.pricePerHour), p.description,
            "Supabase User", "https://i.pravatar.cc/150?img=3", None, None,
            Some((p.lat, p.lng)), p.galleryUrls)
  }

  /**
   * A fetched listing opens in the detail view at the product's own position, never at the
   * default one, and with the product's gallery or three copies of its image.
   */
  lemma FormattedListingOpensAtProduct(p: ProductRow, show: real -> string)
    ensures var m := FormatProduct(p, show);
      MachineryLocation(m.location) == LatLng(p.lat, p.lng) &&
      InitialGallery(m.gallery, m.image) == p.galleryUrls.GetOr([p.imageUrl, p.imageUrl, p.imageUrl])
  {
  }

  /** `data.map(format)`: one listing per row, in order. */
  function FormatProducts(rows: seq<ProductRow>, show: real -> string): (r: seq<Machine>)
    ensures |r| == |rows|
    ensures forall i :: 0 <= i < |rows| ==> r[i] == FormatProduct(rows[i], show)
  {
    seq(|rows|, i requires 0 <= i < |rows| => FormatProduct(rows[i], show))
  }

  // ---------------------------------------------------------------------------------------
  // The page's state

  class HomePage {
    var placeholder: string
    var isDeleting: bool
    var loopNum: nat
    var typingSpeed: nat
    var pausePending: bool
    /** The listings fetched from the store, formatted. */
    var products: seq<Machine>

    function State(): Typing
      reads this
    {
      Typing(placeholder, isDeleting, loopNum, typingSpeed, pausePending)
    }

    constructor ()
      ensures State() == INITIAL_TYPING && Valid(SEARCH_PHRASES, State())
      ensures products == []
    {
      placeholder := "";
      isDeleting := false;
      loopNum := 0;
      typingSpeed := INITIAL_TYPING_SPEED;
      pausePending := false;
      products := [];
    }

    /** The tick timer fires and runs `handleTyping`. */
    method Step()
      requires Valid(SEARCH_PHRASES, State())
      modifies this`placeholder, this`isDeleting, this`loopNum, this`typingSpeed, this`pausePending
      ensures State() == NextTyping(SEARCH_PHRASES, old(State()))
      ensures Valid(SEARCH_PHRASES, State())
    {
      var full := Phrase(SEARCH_PHRASES, loopNum);
      var wasDeleting, was := isDeleting, placeholder;
      TickKeepsValid(SEARCH_PHRASES, State());
      placeholder := if wasDeleting then Substring(full, 0, |was| - 1) else Substring(full, 0, |was| + 1);
      typingSpeed := if wasDeleting then DELETING_SPEED else TYPING_SPEED;
      if !wasDeleting && was == full {
        pausePending := true;
      } else if wasDeleting && was == "" {
        isDeleting := false;
        loopNum := loopNum + 1;
      }
    }

    /** The pause timer fires. */
    method PauseElapsed()
      requires Valid(SEARCH_PHRASES, State())
      modifies this`isDeleting, this`pausePending
      ensures State() == AfterPause(old(State()))
      ensures Valid(SEARCH_PHRASES, State())
    {
      if pausePending {
        isDeleting := true;
        pausePending := false;
      }
    }

    /** `loadProducts`: on an error the list is left as it was, otherwise it becomes the formatted rows. */
    method LoadProducts(answer: Option<seq<ProductRow>>, show: real -> string)
      modifies this`products
      ensures products == if answer.None? then old(products) else FormatProducts(answer.value, show)
    {
      if answer.Some? {
        products := FormatProducts(answer.value, show);
      }
    }
  }
}
