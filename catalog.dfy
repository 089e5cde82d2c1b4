/**
 * The bundled catalog of data.ts: eight categories, 47 quotes and 41
 * wallpapers, and the invariants the rest of the application relies on:
 * category ids are distinct, every quote and wallpaper refers to an existing
 * category, and every quote id and wallpaper id is distinct from every other
 * one (quotes and wallpapers share one favorites set). The source lists the
 * records grouped by category; the groups are kept as separate constants so
 * that each invariant is proved group by group.
 */
module Catalog {
  import opened Types

  const CATEGORIES: seq<Category> :=
  [
    Category("cat1", "Motivational", Bolt),
    Category("cat2", "Love", Heart),
    Category("cat3", "Attitude", Fire),
    Category("cat4", "Wisdom", Beaker),
    Category("cat5", "Inspiration", Sparkles),
    Category("cat6", "Mindfulness", Leaf),
    Category("cat7", "Ambition", RocketLaunch),
    Category("cat8", "Wanderlust", GlobeAlt)
  ]
  // Motivational (cat1)
  const MOTIVATIONAL_QUOTES: seq<Quote> := [
    Quote("q1", "The only way to do great work is to love what you do.", "Steve Jobs", "cat1", false),
    Quote("q2", "Believe you can and you're halfway there.", "Theodore Roosevelt", "cat1", false),
    Quote("q3", "Success is not final, failure is not fatal: it is the courage to continue that counts.", "Winston Churchill", "cat1", true),
    Quote("q4", "Act as if what you do makes a difference. It does.", "William James", "cat1", false),
    Quote("q15", "The future belongs to those who believe in the beauty of their dreams.", "Eleanor Roosevelt", "cat1", false),
    Quote("q16", "It\U{2019}s hard to beat a person who never gives up.", "Babe Ruth", "cat1", true),
    Quote("q24", "What seems to us as bitter trials are often blessings in disguise.", "Oscar Wilde", "cat1", false),
    Quote("q25", "The secret of getting ahead is getting started.", "Mark Twain", "cat1", false)
  ]
  // Love (cat2)
  const LOVE_QUOTES: seq<Quote> := [
    Quote("q5", "To love and be loved is to feel the sun from both sides.", "David Viscott", "cat2", false),
    Quote("q6", "Love is composed of a single soul inhabiting two bodies.", "Aristotle", "cat2", false),
    Quote("q7", "The best thing to hold onto in life is each other.", "Audrey Hepburn", "cat2", true),
    Quote("q17", "Being deeply loved by someone gives you strength, while loving someone deeply gives you courage.", "Lao Tzu", "cat2", false),
    Quote("q26", "You know you're in love when you can't fall asleep because reality is finally better than your dreams.", "Dr. Seuss", "cat2", false),
    Quote("q27", "Love does not consist of gazing at each other, but in looking outward together in the same direction.", "Antoine de Saint-Exup\U{E9}ry", "cat2", true)
  ]
  // Attitude (cat3)
  const ATTITUDE_QUOTES: seq<Quote> := [
    Quote("q8", "Your attitude, not your aptitude, will determine your altitude.", "Zig Ziglar", "cat3", false),
    Quote("q9", "Weakness of attitude becomes weakness of character.", "Albert Einstein", "cat3", true),
    Quote("q10", "A positive attitude causes a chain reaction of positive thoughts, events and outcomes.", "Wade Boggs", "cat3", false),
    Quote("q18", "If you don't like something, change it. If you can't change it, change your attitude.", "Maya Angelou", "cat3", false),
    Quote("q19", "The only disability in life is a bad attitude.", "Scott Hamilton", "cat3", true),
    Quote("q28", "Everything can be taken from a man but one thing: the last of the human freedoms\U{2014}to choose one\U{2019}s attitude in any given set of circumstances.", "Viktor E. Frankl", "cat3", false)
  ]
  // Wisdom (cat4)
  const WISDOM_QUOTES: seq<Quote> := [
    Quote("q11", "The only true wisdom is in knowing you know nothing.", "Socrates", "cat4", false),
    Quote("q12", "The journey of a thousand miles begins with a single step.", "Lao Tzu", "cat4", false),
    Quote("q20", "The quieter you become, the more you are able to hear.", "Rumi", "cat4", true),
    Quote("q21", "Yesterday I was clever, so I wanted to change the world. Today I am wise, so I am changing myself.", "Rumi", "cat4", false),
    Quote("q29", "Count your age by friends, not years. Count your life by smiles, not tears.", "John Lennon", "cat4", false),
    Quote("q30", "The fool doth think he is wise, but the wise man knows himself to be a fool.", "William Shakespeare", "cat4", true)
  ]
  // Inspiration (cat5)
  const INSPIRATION_QUOTES: seq<Quote> := [
    Quote("q13", "Either you run the day, or the day runs you.", "Jim Rohn", "cat5", false),
    Quote("q14", "I have not failed. I've just found 10,000 ways that won't work.", "Thomas A. Edison", "cat5", true),
    Quote("q22", "What you get by achieving your goals is not as important as what you become by achieving your goals.", "Zig Ziglar", "cat5", false),
    Quote("q23", "Creativity is intelligence having fun.", "Albert Einstein", "cat5", true),
    Quote("q31", "Start where you are. Use what you have. Do what you can.", "Arthur Ashe", "cat5", false),
    Quote("q32", "Everything you\U{2019}ve ever wanted is on the other side of fear.", "George Addair", "cat5", false)
  ]
  // Mindfulness (cat6)
  const MINDFULNESS_QUOTES: seq<Quote> := [
    Quote("q33", "The present moment is filled with joy and happiness. If you are attentive, you will see it.", "Thich Nhat Hanh", "cat6", false),
    Quote("q34", "Walk as if you are kissing the Earth with your feet.", "Thich Nhat Hanh", "cat6", true),
    Quote("q35", "The best way to capture moments is to pay attention. This is how we cultivate mindfulness.", "Jon Kabat-Zinn", "cat6", false),
    Quote("q36", "In today's rush, we all think too much, seek too much, want too much and forget about the joy of just being.", "Eckhart Tolle", "cat6", false),
    Quote("q37", "Feelings come and go like clouds in a windy sky. Conscious breathing is my anchor.", "Thich Nhat Hanh", "cat6", true)
  ]
  // Ambition (cat7)
  const AMBITION_QUOTES: seq<Quote> := [
    Quote("q38", "I find that the harder I work, the more luck I seem to have.", "Thomas Jefferson", "cat7", false),
    Quote("q39", "The difference between a successful person and others is not a lack of strength, not a lack of knowledge, but rather a lack in will.", "Vince Lombardi", "cat7", false),
    Quote("q40", "Ambition is the path to success. Persistence is the vehicle you arrive in.", "Bill Bradley", "cat7", true),
    Quote("q41", "Don't be afraid to give up the good to go for the great.", "John D. Rockefeller", "cat7", false),
    Quote("q42", "If you're offered a seat on a rocket ship, don't ask what seat! Just get on.", "Sheryl Sandberg", "cat7", true)
  ]
  // Wanderlust (cat8)
  const WANDERLUST_QUOTES: seq<Quote> := [
    Quote("q43", "The world is a book and those who do not travel read only one page.", "Saint Augustine", "cat8", false),
    Quote("q44", "Not all those who wander are lost.", "J.R.R. Tolkien", "cat8", false),
    Quote("q45", "To travel is to live.", "Hans Christian Andersen", "cat8", true),
    Quote("q46", "Take only memories, leave only footprints.", "Chief Seattle", "cat8", false),
    Quote("q47", "Jobs fill your pocket, but adventures fill your soul.", "Jamie Lyn Beatty", "cat8", true)
  ]
  const QUOTES: seq<Quote> :=
    MOTIVATIONAL_QUOTES + LOVE_QUOTES + ATTITUDE_QUOTES + WISDOM_QUOTES
    + INSPIRATION_QUOTES + MINDFULNESS_QUOTES + AMBITION_QUOTES + WANDERLUST_QUOTES

  // Motivational (cat1)
  const MOTIVATIONAL_WALLPAPERS: seq<Wallpaper> := [
    Wallpaper("w1", "https://picsum.photos/id/10/800/1200", "cat1", false),
    Wallpaper("w2", "https://picsum.photos/id/1015/800/1200", "cat1", false),
    Wallpaper("w3", "https://picsum.photos/id/1018/800/1200", "cat1", true),
    Wallpaper("w10", "https://picsum.photos/id/119/800/1200", "cat1", false),
    Wallpaper("w17", "https://picsum.photos/id/450/800/1200", "cat1", true),
    Wallpaper("w18", "https://picsum.photos/id/141/800/1200", "cat1", false),
    Wallpaper("w19", "https://picsum.photos/id/15/800/1200", "cat1", false)
  ]
  // Love (cat2)
  const LOVE_WALLPAPERS: seq<Wallpaper> := [
    Wallpaper("w4", "https://picsum.photos/id/1028/800/1200", "cat2", false),
    Wallpaper("w5", "https://picsum.photos/id/1040/800/1200", "cat2", true),
    Wallpaper("w11", "https://picsum.photos/id/177/800/1200", "cat2", false),
    Wallpaper("w12", "https://picsum.photos/id/326/800/1200", "cat2", true),
    Wallpaper("w20", "https://picsum.photos/id/314/800/1200", "cat2", false),
    Wallpaper("w21", "https://picsum.photos/id/375/800/1200", "cat2", false)
  ]
  // Attitude (cat3)
  const ATTITUDE_WALLPAPERS: seq<Wallpaper> := [
    Wallpaper("w6", "https://picsum.photos/id/1043/800/1200", "cat3", false),
    Wallpaper("w13", "https://picsum.photos/id/21/800/1200", "cat3", true),
    Wallpaper("w22", "https://picsum.photos/id/13/800/1200", "cat3", false),
    Wallpaper("w23", "https://picsum.photos/id/163/800/1200", "cat3", false)
  ]
  // Wisdom (cat4)
  const WISDOM_WALLPAPERS: seq<Wallpaper> := [
    Wallpaper("w7", "https://picsum.photos/id/1050/800/1200", "cat4", false),
    Wallpaper("w14", "https://picsum.photos/id/249/800/1200", "cat4", false),
    Wallpaper("w15", "https://picsum.photos/id/28/800/1200", "cat4", true),
    Wallpaper("w24", "https://picsum.photos/id/234/800/1200", "cat4", false)
  ]
  // Inspiration (cat5)
  const INSPIRATION_WALLPAPERS: seq<Wallpaper> := [
    Wallpaper("w8", "https://picsum.photos/id/106/800/1200", "cat5", true),
    Wallpaper("w9", "https://picsum.photos/id/1060/800/1200", "cat5", false),
    Wallpaper("w16", "https://picsum.photos/id/431/800/1200", "cat5", false),
    Wallpaper("w25", "https://picsum.photos/id/1074/800/1200", "cat5", true),
    Wallpaper("w26", "https://picsum.photos/id/108/800/1200", "cat5", false)
  ]
  // Mindfulness (cat6)
  const MINDFULNESS_WALLPAPERS: seq<Wallpaper> := [
    Wallpaper("w27", "https://picsum.photos/id/1011/800/1200", "cat6", false),
    Wallpaper("w28", "https://picsum.photos/id/116/800/1200", "cat6", true),
    Wallpaper("w29", "https://picsum.photos/id/142/800/1200", "cat6", false),
    Wallpaper("w30", "https://picsum.photos/id/200/800/1200", "cat6", false),
    Wallpaper("w31", "https://picsum.photos/id/219/800/1200", "cat6", true)
  ]
  // Ambition (cat7)
  const AMBITION_WALLPAPERS: seq<Wallpaper> := [
    Wallpaper("w32", "https://picsum.photos/id/1075/800/1200", "cat7", false),
    Wallpaper("w33", "https://picsum.photos/id/133/800/1200", "cat7", true),
    Wallpaper("w34", "https://picsum.photos/id/137/800/1200", "cat7", false),
    Wallpaper("w35", "https://picsum.photos/id/180/800/1200", "cat7", false),
    Wallpaper("w36", "https://picsum.photos/id/292/800/1200", "cat7", true)
  ]
  // Wanderlust (cat8)
  const WANDERLUST_WALLPAPERS: seq<Wallpaper> := [
    Wallpaper("w37", "https://picsum.photos/id/1016/800/1200", "cat8", true),
    Wallpaper("w38", "https://picsum.photos/id/1039/800/1200", "cat8", false),
    Wallpaper("w39", "https://picsum.photos/id/104/800/1200", "cat8", false),
    Wallpaper("w40", "https://picsum.photos/id/1056/800/1200", "cat8", true),
    Wallpaper("w41", "https://picsum.photos/id/1062/800/1200", "cat8", false)
  ]
  const WALLPAPERS: seq<Wallpaper> :=
    MOTIVATIONAL_WALLPAPERS + LOVE_WALLPAPERS + ATTITUDE_WALLPAPERS + WISDOM_WALLPAPERS
    + INSPIRATION_WALLPAPERS + MINDFULNESS_WALLPAPERS + AMBITION_WALLPAPERS + WANDERLUST_WALLPAPERS


  function QuoteIds(qs: seq<Quote>): (ids: seq<string>)
    ensures |ids| == |qs| && forall i :: 0 <= i < |qs| ==> ids[i] == qs[i].id
  {
    seq(|qs|, i requires 0 <= i < |qs| => qs[i].id)
  }

  function WallpaperIds(ws: seq<Wallpaper>): (ids: seq<string>)
    ensures |ids| == |ws| && forall i :: 0 <= i < |ws| ==> ids[i] == ws[i].id
  {
    seq(|ws|, i requires 0 <= i < |ws| => ws[i].id)
  }

  function CategoryIds(cs: seq<Category>): (ids: seq<string>)
    ensures |ids| == |cs| && forall i :: 0 <= i < |cs| ==> ids[i] == cs[i].id
  {
    seq(|cs|, i requires 0 <= i < |cs| => cs[i].id)
  }

  /** No id occurs twice. */
  ghost predicate DistinctIds(ids: seq<string>) {
    forall i, j :: 0 <= i < j < |ids| ==> ids[i] != ids[j]
  }

  /** The number written after the one-letter prefix of a catalog id ("q40" has 40), or -1. */
  function IdNumber(id: string): int {
    if |id| == 2 then Digit(id[1])
    else if |id| == 3 then 10 * Digit(id[1]) + Digit(id[2])
    else -1
  }

  function Digit(c: char): int {
    c as int - '0' as int
  }

  /**
   * The category number (1 to 8) of the quote "q<n>" or the wallpaper "w<n>"
   * in the catalog; 0 for a number no catalog record uses.
   */
  function GroupOf(prefix: char, n: int): int {
    if prefix == 'q' then
      if n == 1 || n == 2 || n == 3 || n == 4 || n == 15 || n == 16 || n == 24 || n == 25 then 1
      else if n == 5 || n == 6 || n == 7 || n == 17 || n == 26 || n == 27 then 2
      else if n == 8 || n == 9 || n == 10 || n == 18 || n == 19 || n == 28 then 3
      else if n == 11 || n == 12 || n == 20 || n == 21 || n == 29 || n == 30 then 4
      else if n == 13 || n == 14 || n == 22 || n == 23 || n == 31 || n == 32 then 5
      else if n == 33 || n == 34 || n == 35 || n == 36 || n == 37 then 6
      else if n == 38 || n == 39 || n == 40 || n == 41 || n == 42 then 7
      else if n == 43 || n == 44 || n == 45 || n == 46 || n == 47 then 8
      else 0
    else
      if n == 1 || n == 2 || n == 3 || n == 10 || n == 17 || n == 18 || n == 19 then 1
      else if n == 4 || n == 5 || n == 11 || n == 12 || n == 20 || n == 21 then 2
      else if n == 6 || n == 13 || n == 22 || n == 23 then 3
      else if n == 7 || n == 14 || n == 15 || n == 24 then 4
      else if n == 8 || n == 9 || n == 16 || n == 25 || n == 26 then 5
      else if n == 27 || n == 28 || n == 29 || n == 30 || n == 31 then 6
      else if n == 32 || n == 33 || n == 34 || n == 35 || n == 36 then 7
      else if n == 37 || n == 38 || n == 39 || n == 40 || n == 41 then 8
      else 0
  }

  /**
   * A run of distinct ids that all start with `prefix` and whose numbers
   * belong to categories `lo` to `hi`. Two runs over disjoint category
   * ranges cannot share an id, so runs can be joined category by category.
   */
  ghost predicate NumberedGroup(ids: seq<string>, prefix: char, lo: int, hi: int) {
    DistinctIds(ids)
    && forall i :: 0 <= i < |ids| ==>
         |ids[i]| > 0 && ids[i][0] == prefix && lo <= GroupOf(prefix, IdNumber(ids[i])) <= hi
  }

  lemma JoinGroups(a: seq<string>, b: seq<string>, prefix: char, lo: int, mid: int, hi: int)
    requires lo <= mid < hi
    requires NumberedGroup(a, prefix, lo, mid) && NumberedGroup(b, prefix, mid + 1, hi)
    ensures NumberedGroup(a + b, prefix, lo, hi)
  {
    var ab := a + b;
    forall i, j | 0 <= i < j < |ab| ensures ab[i] != ab[j] {
      if i < |a| && |a| <= j {
        assert GroupOf(prefix, IdNumber(ab[i])) <= mid < GroupOf(prefix, IdNumber(ab[j]));
      }
    }
    forall i | 0 <= i < |ab|
      ensures |ab[i]| > 0 && ab[i][0] == prefix && lo <= GroupOf(prefix, IdNumber(ab[i])) <= hi
    {
      if i < |a| {
        assert ab[i] == a[i];
      } else {
        assert ab[i] == b[i - |a|];
      }
    }
  }

  lemma QuoteIdsConcat(a: seq<Quote>, b: seq<Quote>)
    ensures QuoteIds(a + b) == QuoteIds(a) + QuoteIds(b)
  {
  }

  lemma WallpaperIdsConcat(a: seq<Wallpaper>, b: seq<Wallpaper>)
    ensures WallpaperIds(a + b) == WallpaperIds(a) + WallpaperIds(b)
  {
  }

  /** `id` names one of the eight categories. */
  predicate IsCategoryId(id: string) {
    id in CategoryIds(CATEGORIES)
  }

  lemma MotivationalQuotesNumbered()
    ensures NumberedGroup(QuoteIds(MOTIVATIONAL_QUOTES), 'q', 1, 1)
  {
  }

  lemma MotivationalWallpapersNumbered()
    ensures NumberedGroup(WallpaperIds(MOTIVATIONAL_WALLPAPERS), 'w', 1, 1)
  {
  }

  lemma MotivationalInCategory()
    ensures forall q :: q in MOTIVATIONAL_QUOTES ==> q.categoryId == "cat1"
    ensures forall w :: w in MOTIVATIONAL_WALLPAPERS ==> w.categoryId == "cat1"
  {
  }

  lemma LoveQuotesNumbered()
    ensures NumberedGroup(QuoteIds(LOVE_QUOTES), 'q', 2, 2)
  {
  }

  lemma LoveWallpapersNumbered()
    ensures NumberedGroup(WallpaperIds(LOVE_WALLPAPERS), 'w', 2, 2)
  {
  }

  lemma LoveInCategory()
    ensures forall q :: q in LOVE_QUOTES ==> q.categoryId == "cat2"
    ensures forall w :: w in LOVE_WALLPAPERS ==> w.categoryId == "cat2"
  {
  }

  lemma AttitudeQuotesNumbered()
    ensures NumberedGroup(QuoteIds(ATTITUDE_QUOTES), 'q', 3, 3)
  {
  }

  lemma AttitudeWallpapersNumbered()
    ensures NumberedGroup(WallpaperIds(ATTITUDE_WALLPAPERS), 'w', 3, 3)
  {
  }

  lemma AttitudeInCategory()
    ensures forall q :: q in ATTITUDE_QUOTES ==> q.categoryId == "cat3"
    ensures forall w :: w in ATTITUDE_WALLPAPERS ==> w.categoryId == "cat3"
  {
  }

  lemma WisdomQuotesNumbered()
    ensures NumberedGroup(QuoteIds(WISDOM_QUOTES), 'q', 4, 4)
  {
  }

  lemma WisdomWallpapersNumbered()
    ensures NumberedGroup(WallpaperIds(WISDOM_WALLPAPERS), 'w', 4, 4)
  {
  }

  lemma WisdomInCategory()
    ensures forall q :: q in WISDOM_QUOTES ==> q.categoryId == "cat4"
    ensures forall w :: w in WISDOM_WALLPAPERS ==> w.categoryId == "cat4"
  {
  }

  lemma InspirationQuotesNumbered()
    ensures NumberedGroup(QuoteIds(INSPIRATION_QUOTES), 'q', 5, 5)
  {
  }

  lemma InspirationWallpapersNumbered()
    ensures NumberedGroup(WallpaperIds(INSPIRATION_WALLPAPERS), 'w', 5, 5)
  {
  }

  lemma InspirationInCategory()
    ensures forall q :: q in INSPIRATION_QUOTES ==> q.categoryId == "cat5"
    ensures forall w :: w in INSPIRATION_WALLPAPERS ==> w.categoryId == "cat5"
  {
  }

  lemma MindfulnessQuotesNumbered()
    ensures NumberedGroup(QuoteIds(MINDFULNESS_QUOTES), 'q', 6, 6)
  {
  }

  lemma MindfulnessWallpapersNumbered()
    ensures NumberedGroup(WallpaperIds(MINDFULNESS_WALLPAPERS), 'w', 6, 6)
  {
  }

  lemma MindfulnessInCategory()
    ensures forall q :: q in MINDFULNESS_QUOTES ==> q.categoryId == "cat6"
    ensures forall w :: w in MINDFULNESS_WALLPAPERS ==> w.categoryId == "cat6"
  {
  }

  lemma AmbitionQuotesNumbered()
    ensures NumberedGroup(QuoteIds(AMBITION_QUOTES), 'q', 7, 7)
  {
  }

  lemma AmbitionWallpapersNumbered()
    ensures NumberedGroup(WallpaperIds(AMBITION_WALLPAPERS), 'w', 7, 7)
  {
  }

  lemma AmbitionInCategory()
    ensures forall q :: q in AMBITION_QUOTES ==> q.categoryId == "cat7"
    ensures forall w :: w in AMBITION_WALLPAPERS ==> w.categoryId == "cat7"
  {
  }

  lemma WanderlustQuotesNumbered()
    ensures NumberedGroup(QuoteIds(WANDERLUST_QUOTES), 'q', 8, 8)
  {
  }

  lemma WanderlustWallpapersNumbered()
    ensures NumberedGroup(WallpaperIds(WANDERLUST_WALLPAPERS), 'w', 8, 8)
  {
  }

  lemma WanderlustInCategory()
    ensures forall q :: q in WANDERLUST_QUOTES ==> q.categoryId == "cat8"
    ensures forall w :: w in WANDERLUST_WALLPAPERS ==> w.categoryId == "cat8"
  {
  }

  /** Category ids are pairwise distinct (data.ts:5-14). */
  lemma CategoryIdsDistinct()
    ensures DistinctIds(CategoryIds(CATEGORIES))
    ensures |CATEGORIES| == 8
  {
  }

  /** The sixteen per-category id lemmas at once. */
  lemma GroupsWellFormed()
    ensures NumberedGroup(QuoteIds(MOTIVATIONAL_QUOTES), 'q', 1, 1)
    ensures NumberedGroup(QuoteIds(LOVE_QUOTES), 'q', 2, 2)
    ensures NumberedGroup(QuoteIds(ATTITUDE_QUOTES), 'q', 3, 3)
    ensures NumberedGroup(QuoteIds(WISDOM_QUOTES), 'q', 4, 4)
    ensures NumberedGroup(QuoteIds(INSPIRATION_QUOTES), 'q', 5, 5)
    ensures NumberedGroup(QuoteIds(MINDFULNESS_QUOTES), 'q', 6, 6)
    ensures NumberedGroup(QuoteIds(AMBITION_QUOTES), 'q', 7, 7)
    ensures NumberedGroup(QuoteIds(WANDERLUST_QUOTES), 'q', 8, 8)
    ensures NumberedGroup(WallpaperIds(MOTIVATIONAL_WALLPAPERS), 'w', 1, 1)
    ensures NumberedGroup(WallpaperIds(LOVE_WALLPAPERS), 'w', 2, 2)
    ensures NumberedGroup(WallpaperIds(ATTITUDE_WALLPAPERS), 'w', 3, 3)
    ensures NumberedGroup(WallpaperIds(WISDOM_WALLPAPERS), 'w', 4, 4)
    ensures NumberedGroup(WallpaperIds(INSPIRATION_WALLPAPERS), 'w', 5, 5)
    ensures NumberedGroup(WallpaperIds(MINDFULNESS_WALLPAPERS), 'w', 6, 6)
    ensures NumberedGroup(WallpaperIds(AMBITION_WALLPAPERS), 'w', 7, 7)
    ensures NumberedGroup(WallpaperIds(WANDERLUST_WALLPAPERS), 'w', 8, 8)
  {
    MotivationalQuotesNumbered();
    MotivationalWallpapersNumbered();
    LoveQuotesNumbered();
    LoveWallpapersNumbered();
    AttitudeQuotesNumbered();
    AttitudeWallpapersNumbered();
    WisdomQuotesNumbered();
    WisdomWallpapersNumbered();
    InspirationQuotesNumbered();
    InspirationWallpapersNumbered();
    MindfulnessQuotesNumbered();
    MindfulnessWallpapersNumbered();
    AmbitionQuotesNumbered();
    AmbitionWallpapersNumbered();
    WanderlustQuotesNumbered();
    WanderlustWallpapersNumbered();
  }

  lemma CategoryIdsListed()
    ensures IsCategoryId("cat1") && IsCategoryId("cat2") && IsCategoryId("cat3") && IsCategoryId("cat4")
    ensures IsCategoryId("cat5") && IsCategoryId("cat6") && IsCategoryId("cat7") && IsCategoryId("cat8")
  {
    assert CategoryIds(CATEGORIES) == ["cat1", "cat2", "cat3", "cat4", "cat5", "cat6", "cat7", "cat8"];
  }

  /** Every quote refers to one of the categories (data.ts:16-79). */
  lemma QuotesReferToCategories()
    ensures forall q :: q in QUOTES ==> IsCategoryId(q.categoryId)
  {
    CategoryIdsListed();
    MotivationalInCategory();
    LoveInCategory();
    AttitudeInCategory();
    WisdomInCategory();
    InspirationInCategory();
    MindfulnessInCategory();
    AmbitionInCategory();
    WanderlustInCategory();
    forall q | q in QUOTES ensures IsCategoryId(q.categoryId) {
      assert q in MOTIVATIONAL_QUOTES || q in LOVE_QUOTES || q in ATTITUDE_QUOTES || q in WISDOM_QUOTES || q in INSPIRATION_QUOTES || q in MINDFULNESS_QUOTES || q in AMBITION_QUOTES || q in WANDERLUST_QUOTES;
      if q in MOTIVATIONAL_QUOTES {
        assert q.categoryId == "cat1";
      } else if q in LOVE_QUOTES {
        assert q.categoryId == "cat2";
      } else if q in ATTITUDE_QUOTES {
        assert q.categoryId == "cat3";
      } else if q in WISDOM_QUOTES {
        assert q.categoryId == "cat4";
      } else if q in INSPIRATION_QUOTES {
        assert q.categoryId == "cat5";
      } else if q in MINDFULNESS_QUOTES {
        assert q.categoryId == "cat6";
      } else if q in AMBITION_QUOTES {
        assert q.categoryId == "cat7";
      } else if q in WANDERLUST_QUOTES {
        assert q.categoryId == "cat8";
      }
    }
  }

  /** Every wallpaper refers to one of the categories (data.ts:81-138). */
  lemma WallpapersReferToCategories()
    ensures forall w :: w in WALLPAPERS ==> IsCategoryId(w.categoryId)
  {
    CategoryIdsListed();
    MotivationalInCategory();
    LoveInCategory();
    AttitudeInCategory();
    WisdomInCategory();
    InspirationInCategory();
    MindfulnessInCategory();
    AmbitionInCategory();
    WanderlustInCategory();
    forall w | w in WALLPAPERS ensures IsCategoryId(w.categoryId) {
      assert w in MOTIVATIONAL_WALLPAPERS || w in LOVE_WALLPAPERS || w in ATTITUDE_WALLPAPERS || w in WISDOM_WALLPAPERS || w in INSPIRATION_WALLPAPERS || w in MINDFULNESS_WALLPAPERS || w in AMBITION_WALLPAPERS || w in WANDERLUST_WALLPAPERS;
      if w in MOTIVATIONAL_WALLPAPERS {
        assert w.categoryId == "cat1";
      } else if w in LOVE_WALLPAPERS {
        assert w.categoryId == "cat2";
      } else if w in ATTITUDE_WALLPAPERS {
        assert w.categoryId == "cat3";
      } else if w in WISDOM_WALLPAPERS {
        assert w.categoryId == "cat4";
      } else if w in INSPIRATION_WALLPAPERS {
        assert w.categoryId == "cat5";
      } else if w in MINDFULNESS_WALLPAPERS {
        assert w.categoryId == "cat6";
      } else if w in AMBITION_WALLPAPERS {
        assert w.categoryId == "cat7";
      } else if w in WANDERLUST_WALLPAPERS {
        assert w.categoryId == "cat8";
      }
    }
  }

  /** Quote ids are distinct and all start with 'q'. */
  lemma QuoteIdsDistinct()
    ensures NumberedGroup(QuoteIds(QUOTES), 'q', 1, 8)
  {
    GroupsWellFormed();
    var xs := MOTIVATIONAL_QUOTES;
    JoinGroups(QuoteIds(xs), QuoteIds(LOVE_QUOTES), 'q', 1, 1, 2);
    QuoteIdsConcat(xs, LOVE_QUOTES);
    xs := xs + LOVE_QUOTES;
    JoinGroups(QuoteIds(xs), QuoteIds(ATTITUDE_QUOTES), 'q', 1, 2, 3);
    QuoteIdsConcat(xs, ATTITUDE_QUOTES);
    xs := xs + ATTITUDE_QUOTES;
    JoinGroups(QuoteIds(xs), QuoteIds(WISDOM_QUOTES), 'q', 1, 3, 4);
    QuoteIdsConcat(xs, WISDOM_QUOTES);
    xs := xs + WISDOM_QUOTES;
    JoinGroups(QuoteIds(xs), QuoteIds(INSPIRATION_QUOTES), 'q', 1, 4, 5);
    QuoteIdsConcat(xs, INSPIRATION_QUOTES);
    xs := xs + INSPIRATION_QUOTES;
    JoinGroups(QuoteIds(xs), QuoteIds(MINDFULNESS_QUOTES), 'q', 1, 5, 6);
    QuoteIdsConcat(xs, MINDFULNESS_QUOTES);
    xs := xs + MINDFULNESS_QUOTES;
    JoinGroups(QuoteIds(xs), QuoteIds(AMBITION_QUOTES), 'q', 1, 6, 7);
    QuoteIdsConcat(xs, AMBITION_QUOTES);
    xs := xs + AMBITION_QUOTES;
    JoinGroups(QuoteIds(xs), QuoteIds(WANDERLUST_QUOTES), 'q', 1, 7, 8);
    QuoteIdsConcat(xs, WANDERLUST_QUOTES);
    xs := xs + WANDERLUST_QUOTES;
    assert xs == QUOTES;
  }

  /** Wallpaper ids are distinct and all start with 'w'. */
  lemma WallpaperIdsDistinct()
    ensures NumberedGroup(WallpaperIds(WALLPAPERS), 'w', 1, 8)
  {
    GroupsWellFormed();
    var xs := MOTIVATIONAL_WALLPAPERS;
    JoinGroups(WallpaperIds(xs), WallpaperIds(LOVE_WALLPAPERS), 'w', 1, 1, 2);
    WallpaperIdsConcat(xs, LOVE_WALLPAPERS);
    xs := xs + LOVE_WALLPAPERS;
    JoinGroups(WallpaperIds(xs), WallpaperIds(ATTITUDE_WALLPAPERS), 'w', 1, 2, 3);
    WallpaperIdsConcat(xs, ATTITUDE_WALLPAPERS);
    xs := xs + ATTITUDE_WALLPAPERS;
    JoinGroups(WallpaperIds(xs), WallpaperIds(WISDOM_WALLPAPERS), 'w', 1, 3, 4);
    WallpaperIdsConcat(xs, WISDOM_WALLPAPERS);
    xs := xs + WISDOM_WALLPAPERS;
    JoinGroups(WallpaperIds(xs), WallpaperIds(INSPIRATION_WALLPAPERS), 'w', 1, 4, 5);
    WallpaperIdsConcat(xs, INSPIRATION_WALLPAPERS);
    xs := xs + INSPIRATION_WALLPAPERS;
    JoinGroups(WallpaperIds(xs), WallpaperIds(MINDFULNESS_WALLPAPERS), 'w', 1, 5, 6);
    WallpaperIdsConcat(xs, MINDFULNESS_WALLPAPERS);
    xs := xs + MINDFULNESS_WALLPAPERS;
    JoinGroups(WallpaperIds(xs), WallpaperIds(AMBITION_WALLPAPERS), 'w', 1, 6, 7);
    WallpaperIdsConcat(xs, AMBITION_WALLPAPERS);
    xs := xs + AMBITION_WALLPAPERS;
    JoinGroups(WallpaperIds(xs), WallpaperIds(WANDERLUST_WALLPAPERS), 'w', 1, 7, 8);
    WallpaperIdsConcat(xs, WANDERLUST_WALLPAPERS);
    xs := xs + WANDERLUST_WALLPAPERS;
    assert xs == WALLPAPERS;
  }

  /**
   * Quote ids and wallpaper ids share one favorites/unlocked namespace: no id
   * occurs twice among all of them (data.ts:16-138).
   */
  lemma CatalogIdsUnique()
    ensures DistinctIds(QuoteIds(QUOTES) + WallpaperIds(WALLPAPERS))
  {
    QuoteIdsDistinct();
    WallpaperIdsDistinct();
    var a, b := QuoteIds(QUOTES), WallpaperIds(WALLPAPERS);
    var ab := a + b;
    forall i, j | 0 <= i < j < |ab| ensures ab[i] != ab[j] {
      if i < |a| && |a| <= j {
        assert ab[i][0] == 'q' && ab[j][0] == 'w';
      }
    }
  }

  /** Two catalog quotes with the same id are the same quote. */
  lemma QuoteIdDetermines(q: Quote, r: Quote)
    requires q in QUOTES && r in QUOTES && q.id == r.id
    ensures q == r
  {
    QuoteIdsDistinct();
    var i :| 0 <= i < |QUOTES| && QUOTES[i] == q;
    var j :| 0 <= j < |QUOTES| && QUOTES[j] == r;
    assert QuoteIds(QUOTES)[i] == QuoteIds(QUOTES)[j];
  }
}
