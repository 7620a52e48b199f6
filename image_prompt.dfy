/**
 * The choice of an image prompt for a prediction (`generateImagePrompt` in
 * main.go): the first tarot card of the 78-card table whose name occurs in
 * the prediction, ignoring case, gives its description; otherwise a keyword
 * picks one of four fixed prompts, or a default one.
 */
module ImagePrompt {
  import opened GoStrings

  /** The table of tarot cards and the scene each one is drawn as. */
  function Cards(): map<string, string> {
    map[
      "The Fool" := "A whimsical fool dancing under a bright sky with mystical symbols",
      "The Magician" := "A powerful magician casting spells with glowing tarot cards",
      "The High Priestess" := "A mysterious priestess in a moonlit temple surrounded by secrets",
      "The Empress" := "A radiant empress in a lush garden with golden light",
      "The Emperor" := "A stern emperor on a throne with fiery skies",
      "The Hierophant" := "A wise priest in a sacred hall with glowing scrolls",
      "The Lovers" := "Two lovers under a starry sky with mystical intertwining fates",
      "The Chariot" := "A warrior in a chariot charging through a cosmic battlefield",
      "Strength" := "A gentle figure taming a lion under a golden sun",
      "The Hermit" := "A lone hermit with a lantern in a foggy night",
      "Wheel of Fortune" := "A spinning wheel of fate under a cosmic sky",
      "Justice" := "A figure with scales and a sword in a hall of light",
      "The Hanged Man" := "A figure hanging upside down in a mystical glow",
      "Death" := "A skeletal figure in a dark misty landscape with renewal symbols",
      "Temperance" := "An angelic figure blending water under a rainbow",
      "The Devil" := "A chained figure under a fiery pentagram",
      "The Tower" := "A crumbling tower struck by lightning in a stormy night",
      "The Star" := "A serene figure under a starry sky pouring water into a glowing pool",
      "The Moon" := "A moonlit scene with howling wolves and mysterious shadows",
      "The Sun" := "A bright sun illuminating a joyful child in a golden field",
      "Judgement" := "Figures rising from graves under a trumpet's call",
      "The World" := "A dancer in a cosmic circle with glowing symbols",
      "Ace of Wands" := "A glowing wand igniting flames in a mystical void",
      "Two of Wands" := "A figure holding two wands overlooking a fiery horizon",
      "Three of Wands" := "A figure watching ships sail under a blazing sky",
      "Four of Wands" := "A celebration with four wands under a golden arch",
      "Five of Wands" := "Five figures clashing with wands in a stormy scene",
      "Six of Wands" := "A victorious rider with a wand crowned in laurels",
      "Seven of Wands" := "A figure defending with a wand against shadows",
      "Eight of Wands" := "Eight wands flying through a fiery sky",
      "Nine of Wands" := "A weary figure guarding with nine wands",
      "Ten of Wands" := "A burdened figure carrying ten wands in a dim light",
      "Page of Wands" := "A young explorer with a wand in a blazing field",
      "Knight of Wands" := "A knight charging with a wand through flames",
      "Queen of Wands" := "A queen with a wand seated in a fiery throne",
      "King of Wands" := "A king with a wand ruling over a burning landscape",
      "Ace of Cups" := "A glowing chalice overflowing with mystical water",
      "Two of Cups" := "Two figures sharing cups under a gentle sky",
      "Three of Cups" := "Three figures dancing with cups in a joyful scene",
      "Four of Cups" := "A figure ignoring four cups under a cloudy sky",
      "Five of Cups" := "A figure mourning over spilled cups in a dark mist",
      "Six of Cups" := "Children exchanging cups in a nostalgic glow",
      "Seven of Cups" := "A figure dreaming of seven cups in a misty vision",
      "Eight of Cups" := "A figure walking away from eight cups under a moon",
      "Nine of Cups" := "A satisfied figure with nine cups in a golden light",
      "Ten of Cups" := "A family under a rainbow with ten cups",
      "Page of Cups" := "A young dreamer with a cup by a serene river",
      "Knight of Cups" := "A knight offering a cup on a misty shore",
      "Queen of Cups" := "A queen with a cup seated by a tranquil sea",
      "King of Cups" := "A king with a cup ruling over calm waters",
      "Ace of Swords" := "A glowing sword piercing a stormy sky",
      "Two of Swords" := "A blindfolded figure with two crossed swords",
      "Three of Swords" := "A heart pierced by three swords in a rainy scene",
      "Four of Swords" := "A resting figure with four swords in a quiet tomb",
      "Five of Swords" := "A victor with five swords in a tense battlefield",
      "Six of Swords" := "A boat with six swords crossing a misty river",
      "Seven of Swords" := "A figure sneaking away with seven swords",
      "Eight of Swords" := "A bound figure surrounded by eight swords",
      "Nine of Swords" := "A figure in despair with nine swords overhead",
      "Ten of Swords" := "A fallen figure pierced by ten swords under a dark sky",
      "Page of Swords" := "A young spy with a sword in a windy field",
      "Knight of Swords" := "A knight charging with a sword through a storm",
      "Queen of Swords" := "A queen with a sword seated in a clear sky",
      "King of Swords" := "A king with a sword ruling from a stormy throne",
      "Ace of Pentacles" := "A glowing pentacle in a fertile garden",
      "Two of Pentacles" := "A juggler balancing two pentacles by the sea",
      "Three of Pentacles" := "A craftsman working with three pentacles",
      "Four of Pentacles" := "A miser clutching four pentacles in a dim vault",
      "Five of Pentacles" := "Two beggars under five pentacles in a snowy night",
      "Six of Pentacles" := "A generous figure giving six pentacles",
      "Seven of Pentacles" := "A farmer tending seven pentacles in a field",
      "Eight of Pentacles" := "A worker crafting eight pentacles",
      "Nine of Pentacles" := "A lady with nine pentacles in a lush vineyard",
      "Ten of Pentacles" := "A family with ten pentacles in a golden estate",
      "Page of Pentacles" := "A young scholar with a pentacle in a green field",
      "Knight of Pentacles" := "A knight with a pentacle riding through farmland",
      "Queen of Pentacles" := "A queen with a pentacle seated in a garden",
      "King of Pentacles" := "A king with a pentacle ruling over a golden land"
    ]
  }

  /** Appended to a card's description. */
  const Atmosphere := ", mystical tarot style, glowing ethereal atmosphere"

  const FirePrompt := "A fiery tarot card glowing with mystical flames in a dark void"
  const SeaPrompt := "A tarot card with a turbulent sea under a stormy sky, mystical glow"
  const StarsPrompt := "A tarot card with a starry night sky and glowing celestial symbols"
  const LovePrompt := "A tarot card with two entwined figures under a glowing heart, mystical aura"
  const DefaultPrompt := "A mystical tarot card with swirling fates and ethereal light in a dark room"

  /** The name of a card occurs in the text, both lower-cased. */
  predicate NamesCard(text: string, name: string) {
    Contains(ToLower(text), ToLower(name))
  }

  /** Some card of the table is named in the text. */
  predicate MentionsAnyCard(table: map<string, string>, text: string) {
    exists name :: name in table && NamesCard(text, name)
  }

  /** The lower-cased text contains one of the two keywords of a theme. */
  predicate Mentions(text: string, russian: string, english: string) {
    Contains(ToLower(text), russian) || Contains(ToLower(text), english)
  }

  predicate MentionsFire(text: string) { Mentions(text, "огонь", "fire") }
  predicate MentionsSea(text: string) { Mentions(text, "море", "sea") }
  predicate MentionsStars(text: string) { Mentions(text, "звезды", "stars") }
  predicate MentionsLove(text: string) { Mentions(text, "любовь", "love") }

  /** The prompt when no card is named: the first theme that matches, in a fixed order. */
  function KeywordPrompt(text: string): string {
    if MentionsFire(text) then FirePrompt
    else if MentionsSea(text) then SeaPrompt
    else if MentionsStars(text) then StarsPrompt
    else if MentionsLove(text) then LovePrompt
    else DefaultPrompt
  }

  /**
   * An iteration order over a card table, as Go's map iteration may choose
   * it afresh on every call: every card exactly once.
   */
  predicate IsOrder(table: map<string, string>, order: seq<string>) {
    && (forall i :: 0 <= i < |order| ==> order[i] in table)
    && (forall name :: name in table ==> name in order)
    && (forall i, j :: 0 <= i < j < |order| ==> order[i] != order[j])
  }

  /** The card at position `i` of the order is in the table and named in the text. */
  predicate HitAt(table: map<string, string>, text: string, order: seq<string>, i: int) {
    0 <= i < |order| && order[i] in table && NamesCard(text, order[i])
  }

  /** The prompt when the table is visited in `order`, starting at position `from`. */
  function PromptFrom(table: map<string, string>, text: string, order: seq<string>, from: nat): string
    requires from <= |order|
    decreases |order| - from
  {
    if from == |order| then KeywordPrompt(text)
    else if HitAt(table, text, order, from) then table[order[from]] + Atmosphere
    else PromptFrom(table, text, order, from + 1)
  }

  /** The prompt chosen for a text when the table is visited in `order`. */
  function PromptFor(table: map<string, string>, text: string, order: seq<string>): string {
    PromptFrom(table, text, order, 0)
  }

  /** From position `from`: the first hit gives its scene; without a hit the keywords decide. */
  lemma {:induction false} PromptFromCases(table: map<string, string>, text: string, order: seq<string>, from: nat)
    requires from <= |order|
    ensures (exists i :: from <= i && HitAt(table, text, order, i)) ==>
      exists i :: from <= i && HitAt(table, text, order, i) && PromptFrom(table, text, order, from) == table[order[i]] + Atmosphere
    ensures (forall i :: from <= i ==> !HitAt(table, text, order, i)) ==>
      PromptFrom(table, text, order, from) == KeywordPrompt(text)
    decreases |order| - from
  {
    if from < |order| && !HitAt(table, text, order, from) {
      PromptFromCases(table, text, order, from + 1);
      if exists i :: from <= i && HitAt(table, text, order, i) {
        var i :| from <= i && HitAt(table, text, order, i);
        assert i != from;
      }
    }
  }

  /**
   * When the text names some card, the prompt is the scene of a card it
   * names followed by the atmosphere; when it names none, the keywords decide.
   */
  lemma CardSceneWhenNamed(table: map<string, string>, text: string, order: seq<string>)
    requires IsOrder(table, order)
    ensures MentionsAnyCard(table, text) ==>
      exists name :: name in table && NamesCard(text, name) && PromptFor(table, text, order) == table[name] + Atmosphere
    ensures !MentionsAnyCard(table, text) ==> PromptFor(table, text, order) == KeywordPrompt(text)
  {
    PromptFromCases(table, text, order, 0);
    if MentionsAnyCard(table, text) {
      var name :| name in table && NamesCard(text, name);
      assert name in order;
      var i :| 0 <= i < |order| && order[i] == name;
      assert HitAt(table, text, order, i);
    }
  }

  /** When the text names exactly one card, the iteration order does not change the prompt. */
  lemma UniqueCardIgnoresOrder(table: map<string, string>, text: string, order1: seq<string>, order2: seq<string>)
    requires IsOrder(table, order1) && IsOrder(table, order2)
    requires forall a, b :: a in table && b in table && NamesCard(text, a) && NamesCard(text, b) ==> a == b
    ensures PromptFor(table, text, order1) == PromptFor(table, text, order2)
  {
    CardSceneWhenNamed(table, text, order1);
    CardSceneWhenNamed(table, text, order2);
  }

  /** A keyword prompt never ends with the atmosphere appended to a card's scene. */
  lemma KeywordPromptHasNoAtmosphere(text: string)
    ensures !HasSuffix(KeywordPrompt(text), Atmosphere)
  {
    var p := KeywordPrompt(text);
    assert Atmosphere[|Atmosphere| - 1] == 'e';
    assert p[|p| - 1] != 'e';
  }

  /** The prompt ends with the atmosphere exactly when the text names a card of the table. */
  lemma AtmosphereIffCardNamed(table: map<string, string>, text: string, order: seq<string>)
    requires IsOrder(table, order)
    ensures HasSuffix(PromptFor(table, text, order), Atmosphere) <==> MentionsAnyCard(table, text)
  {
    CardSceneWhenNamed(table, text, order);
    KeywordPromptHasNoAtmosphere(text);
    if MentionsAnyCard(table, text) {
      var name :| name in table && NamesCard(text, name) && PromptFor(table, text, order) == table[name] + Atmosphere;
      var r := table[name] + Atmosphere;
      assert r[|r| - |Atmosphere|..] == Atmosphere;
    }
  }

  lemma LowerCharIdempotent(c: char)
    ensures LowerChar(LowerChar(c)) == LowerChar(c)
  {
  }

  /** Lower-casing twice is lower-casing once. */
  lemma ToLowerIdempotent(s: string)
    ensures ToLower(ToLower(s)) == ToLower(s)
  {
    forall i | 0 <= i < |s|
      ensures ToLower(ToLower(s))[i] == ToLower(s)[i]
    {
      LowerCharIdempotent(s[i]);
    }
  }

  /** Matching ignores case: a text and its lower-cased form get the same prompt. */
  lemma {:induction false} PromptIgnoresCase(table: map<string, string>, text: string, order: seq<string>, from: nat)
    requires from <= |order|
    ensures PromptFrom(table, ToLower(text), order, from) == PromptFrom(table, text, order, from)
    decreases |order| - from
  {
    ToLowerIdempotent(text);
    if from < |order| {
      PromptIgnoresCase(table, text, order, from + 1);
    }
  }

  /** The loop over the table in iteration order, returning at the first card the text names. */
  method SearchTable(table: map<string, string>, text: string, order: seq<string>) returns (prompt: string)
    ensures prompt == PromptFor(table, text, order)
  {
    var lower := ToLower(text);
    var i := 0;
    while i < |order|
      invariant 0 <= i <= |order|
      invariant PromptFrom(table, text, order, i) == PromptFor(table, text, order)
    {
      var name := order[i];
      if name in table && Contains(lower, ToLower(name)) {
        return table[name] + Atmosphere;
      }
      i := i + 1;
    }
    if Contains(lower, "огонь") || Contains(lower, "fire") {
      prompt := FirePrompt;
    } else if Contains(lower, "море") || Contains(lower, "sea") {
      prompt := SeaPrompt;
    } else if Contains(lower, "звезды") || Contains(lower, "stars") {
      prompt := StarsPrompt;
    } else if Contains(lower, "любовь") || Contains(lower, "love") {
      prompt := LovePrompt;
    } else {
      prompt := DefaultPrompt;
    }
  }

  /** generateImagePrompt: the search over this service's own table of 78 cards. */
  method GenerateImagePrompt(text: string, order: seq<string>) returns (prompt: string)
    ensures prompt == PromptFor(Cards(), text, order)
  {
    prompt := SearchTable(Cards(), text, order);
  }
}
