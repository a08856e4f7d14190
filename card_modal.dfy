/** The card modal: which cards are judged by the other players, which
    resolutions the modal offers, and the style chosen by category. */
module CardModal {
  import opened GameTypes
  import opened GameReducer

  /** `sub` occurs in `s` at index `i`. */
  predicate OccursAt(s: string, sub: string, i: int)
    requires 0 <= i <= |s| - |sub|
  {
    s[i..i + |sub|] == sub
  }

  /** `s.includes(sub)` */
  predicate Contains(s: string, sub: string) {
    exists i :: 0 <= i <= |s| - |sub| && OccursAt(s, sub, i)
  }

  /** Judgment mode: the category names a challenge or the card asks for
      judgment. */
  predicate IsReto(category: string, card: Card) {
    Contains(category, "RETO") || card.requiresJudgment
  }

  /** The values the modal's buttons can send to RESOLVE_CARD. */
  function OfferedResolutions(category: string, card: Card): (r: set<bool>)
    ensures true in r
    ensures false in r <==> IsReto(category, card)
  {
    if IsReto(category, card) then {true, false} else {true}
  }

  /** A card outside judgment mode always has its rewards applied: every
      resolution the modal offers applies the card. */
  lemma UnjudgedCardsApply(s: GameState, b: bool)
    requires s.activeModal.Some? && s.activeModal.value.CardShown?
    requires s.activeModal.value.card.r.Some?
    requires !IsReto(s.activeModal.value.category, s.activeModal.value.card)
    requires b in OfferedResolutions(s.activeModal.value.category, s.activeModal.value.card)
    ensures AppliesCard(s, b)
  {
  }

  /** A judged card may be declined, which leaves the current player as
      they were. */
  lemma JudgedCardsMayBeDeclined(s: GameState)
    requires ValidCurrent(s) && s.activeModal.Some? && s.activeModal.value.CardShown?
    requires IsReto(s.activeModal.value.category, s.activeModal.value.card)
    ensures false in OfferedResolutions(s.activeModal.value.category, s.activeModal.value.card)
    ensures CurrentPlayer(ResolveCardStep(s, false)) == CurrentPlayer(s)
  {
  }

  /** The challenge cards of a card tile are always judged; the expertise
      cards only when they ask for it. */
  lemma CardTileJudgment(card: Card)
    ensures IsReto("RETO DIVERTIDO", card)
    ensures IsReto("MOMENTO EXPERTIS", card) <==> card.requiresJudgment
  {
    assert OccursAt("RETO DIVERTIDO", "RETO", 0);
    var e := "MOMENTO EXPERTIS";
    forall i | 0 <= i <= |e| - 4
      ensures !OccursAt(e, "RETO", i)
    {
      assert e[i..i + 4][0] == e[i] && e[i..i + 4][1] == e[i + 1];
      assert e[i] != 'R' || e[i + 1] != 'E';
    }
  }

  datatype Style = RetoStyle | ExpertisStyle | LuckStyle | RouteStyle | TaxStyle | CommunityStyle | BirthdayStyle | PlainStyle

  /** The modal's style: the first category substring that matches, in the
      order RETO, EXPERTIS, GANASTE or SUERTE, RUTA, IMPUESTOS, COMUNIDAD or
      POEMA, FELIZ CUMPLEAÑOS; the plain style when none does. */
  function CardStyle(category: string): (st: Style)
    ensures st == RetoStyle <==> Contains(category, "RETO")
    ensures st == ExpertisStyle <==> !Contains(category, "RETO") && Contains(category, "EXPERTIS")
    ensures st == LuckStyle <==>
              !Contains(category, "RETO") && !Contains(category, "EXPERTIS")
              && (Contains(category, "GANASTE") || Contains(category, "SUERTE"))
    ensures st == RouteStyle <==>
              !Contains(category, "RETO") && !Contains(category, "EXPERTIS") && !Contains(category, "GANASTE")
              && !Contains(category, "SUERTE") && Contains(category, "RUTA")
    ensures st == TaxStyle <==>
              !Contains(category, "RETO") && !Contains(category, "EXPERTIS") && !Contains(category, "GANASTE")
              && !Contains(category, "SUERTE") && !Contains(category, "RUTA") && Contains(category, "IMPUESTOS")
    ensures st == CommunityStyle <==>
              !Contains(category, "RETO") && !Contains(category, "EXPERTIS") && !Contains(category, "GANASTE")
              && !Contains(category, "SUERTE") && !Contains(category, "RUTA") && !Contains(category, "IMPUESTOS")
              && (Contains(category, "COMUNIDAD") || Contains(category, "POEMA"))
    ensures st == BirthdayStyle <==>
              !Contains(category, "RETO") && !Contains(category, "EXPERTIS") && !Contains(category, "GANASTE")
              && !Contains(category, "SUERTE") && !Contains(category, "RUTA") && !Contains(category, "IMPUESTOS")
              && !Contains(category, "COMUNIDAD") && !Contains(category, "POEMA")
              && Contains(category, "FELIZ CUMPLEAÑOS")
    ensures st == PlainStyle <==>
              !Contains(category, "RETO") && !Contains(category, "EXPERTIS") && !Contains(category, "GANASTE")
              && !Contains(category, "SUERTE") && !Contains(category, "RUTA") && !Contains(category, "IMPUESTOS")
              && !Contains(category, "COMUNIDAD") && !Contains(category, "POEMA")
              && !Contains(category, "FELIZ CUMPLEAÑOS")
  {
    if Contains(category, "RETO") then RetoStyle
    else if Contains(category, "EXPERTIS") then ExpertisStyle
    else if Contains(category, "GANASTE") || Contains(category, "SUERTE") then LuckStyle
    else if Contains(category, "RUTA") then RouteStyle
    else if Contains(category, "IMPUESTOS") then TaxStyle
    else if Contains(category, "COMUNIDAD") || Contains(category, "POEMA") then CommunityStyle
    else if Contains(category, "FELIZ CUMPLEAÑOS") then BirthdayStyle
    else PlainStyle
  }

  /** The two card-tile categories are styled as challenge and expertise. */
  lemma CardTileStyles()
    ensures CardStyle("RETO DIVERTIDO") == RetoStyle
    ensures CardStyle("MOMENTO EXPERTIS") == ExpertisStyle
  {
    CardTileJudgment(Card("", None, "", None, false));
    assert OccursAt("MOMENTO EXPERTIS", "EXPERTIS", 8);
  }

  /** The style keywords, in the order the modal tries them. */
  const StyleKeywords: seq<string> :=
    ["RETO", "EXPERTIS", "GANASTE", "SUERTE", "RUTA", "IMPUESTOS", "COMUNIDAD", "POEMA", "FELIZ CUMPLEAÑOS"]

  /** A string in which no two adjacent characters start `kw` does not
      contain `kw`. */
  lemma NoOccurrence(s: string, kw: string)
    requires |kw| >= 2
    requires forall i :: 0 <= i < |s| - 1 ==> s[i] != kw[0] || s[i + 1] != kw[1]
    ensures !Contains(s, kw)
  {
    forall i | 0 <= i <= |s| - |kw|
      ensures !OccursAt(s, kw, i)
    {
      assert s[i..i + |kw|][0] == s[i] && s[i..i + |kw|][1] == s[i + 1];
    }
  }

  /** A keyword that cannot start inside "Ruta " occurs in "Ruta " + id
      only inside id. */
  lemma RoutePrefixContains(id: string, kw: string)
    requires |kw| >= 2 && kw[0] !in {'u', 't', 'a', ' '} && (kw[0] == 'R' ==> kw[1] != 'u')
    ensures Contains("Ruta " + id, kw) ==> Contains(id, kw)
  {
    var s := "Ruta " + id;
    if Contains(s, kw) {
      var i :| 0 <= i <= |s| - |kw| && OccursAt(s, kw, i);
      assert s[i..i + |kw|][0] == s[i] && s[i..i + |kw|][1] == s[i + 1];
      if i < 5 {
        assert false;
      }
      assert id[i - 5..i - 5 + |kw|] == s[i..i + |kw|];
      assert OccursAt(id, kw, i - 5);
    }
  }

  /** The route card's category "Ruta " + id and the birthday summary's
      "CUMPLEAÑOS" miss every upper-case keyword, so both get the plain
      style, as long as the route id holds no keyword itself. */
  lemma RouteAndBirthdaySummaryArePlain(id: string)
    requires forall k :: 0 <= k < |StyleKeywords| ==> !Contains(id, StyleKeywords[k])
    ensures CardStyle("Ruta " + id) == PlainStyle
    ensures CardStyle("CUMPLEAÑOS") == PlainStyle
  {
    forall k | 0 <= k < |StyleKeywords|
      ensures !Contains("Ruta " + id, StyleKeywords[k])
      ensures !Contains("CUMPLEAÑOS", StyleKeywords[k])
    {
      RoutePrefixContains(id, StyleKeywords[k]);
      NoOccurrence("CUMPLEAÑOS", StyleKeywords[k]);
    }
    assert StyleKeywords[0] == "RETO" && StyleKeywords[1] == "EXPERTIS" && StyleKeywords[2] == "GANASTE";
    assert StyleKeywords[3] == "SUERTE" && StyleKeywords[4] == "RUTA" && StyleKeywords[5] == "IMPUESTOS";
    assert StyleKeywords[6] == "COMUNIDAD" && StyleKeywords[7] == "POEMA" && StyleKeywords[8] == "FELIZ CUMPLEAÑOS";
  }
}
