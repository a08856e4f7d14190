/** The player setup form: time points by age, the name rule (distinct
    initials), the validity rule, the random auto-balance of goals and the
    player record handed to SAVE_PLAYER. */
module Setup {
  import opened GameTypes

  // ---------------------------------------------------------------------
  // Time points

  /** Time points by age: the younger the player, the more time. */
  function TimePoints(age: int): (t: int)
    ensures age > 60 ==> t == 15
    ensures 41 <= age <= 60 ==> t == 20
    ensures 21 <= age <= 40 ==> t == 25
    ensures 1 <= age <= 20 ==> t == 30
    ensures age <= 0 ==> t == 0
    ensures 0 <= t <= 30
  {
    if age > 60 then 15 else if age >= 41 then 20 else if age >= 21 then 25 else if age > 0 then 30 else 0
  }

  /** Among players of a positive age, an older player never gets more time. */
  lemma TimePointsAntitone(a: int, b: int)
    requires 0 < a <= b
    ensures TimePoints(b) <= TimePoints(a)
  {
  }

  /** `parseInt(age) || 0`: `age` is the parsed field, `None` when it does
      not parse. */
  function AgeNumber(age: Option<int>): int {
    if age.Some? then age.value else 0
  }

  // ---------------------------------------------------------------------
  // Names

  /** The white space `String.prototype.trim` removes. */
  predicate IsSpace(ch: char) {
    ch in {' ', '\t', '\n', '\r', '\U{000B}', '\U{000C}', '\U{00A0}', '\U{1680}', '\U{2028}', '\U{2029}',
           '\U{202F}', '\U{205F}', '\U{3000}', '\U{FEFF}'}
    || ('\U{2000}' <= ch <= '\U{200A}')
  }

  /** The number of leading white-space characters. */
  function LeadingSpaces(s: string): (k: nat)
    ensures k <= |s|
    ensures forall i :: 0 <= i < k ==> IsSpace(s[i])
    ensures k < |s| ==> !IsSpace(s[k])
  {
    if |s| > 0 && IsSpace(s[0]) then 1 + LeadingSpaces(s[1..]) else 0
  }

  /** The number of trailing white-space characters. */
  function TrailingSpaces(s: string): (k: nat)
    ensures k <= |s|
    ensures forall i :: |s| - k <= i < |s| ==> IsSpace(s[i])
    ensures k < |s| ==> !IsSpace(s[|s| - k - 1])
  {
    if |s| > 0 && IsSpace(s[|s| - 1]) then 1 + TrailingSpaces(s[..|s| - 1]) else 0
  }

  /** `s.trim()`: the slice of `s` between its leading and trailing space. */
  function Trim(s: string): (r: string)
    ensures exists i, j :: 0 <= i <= j <= |s| && r == s[i..j]
    ensures |r| > 0 ==> !IsSpace(r[0]) && !IsSpace(r[|r| - 1])
    ensures (forall i :: 0 <= i < |s| ==> IsSpace(s[i])) ==> r == []
  {
    var rest := s[LeadingSpaces(s)..];
    var r := rest[..|rest| - TrailingSpaces(rest)];
    assert r == s[LeadingSpaces(s)..LeadingSpaces(s) + |r|];
    r
  }

  /** Upper case of one character: the ASCII and Latin-1 small letters with
      a one-character capital (ÿ to Ÿ, µ to Greek capital mu).  The sharp s,
      whose capital is the two letters "SS", stays as it is. */
  function UpperChar(ch: char): (u: char)
    ensures IsSpace(u) <==> IsSpace(ch)
  {
    if 'a' <= ch <= 'z' || ('\U{00E0}' <= ch <= '\U{00FE}' && ch != '\U{00F7}') then (ch as int - 32) as char
    else if ch == '\U{00FF}' then '\U{0178}'
    else if ch == '\U{00B5}' then '\U{039C}'
    else ch
  }

  function Upper(s: string): (u: string)
    ensures |u| == |s|
    ensures forall i :: 0 <= i < |s| ==> u[i] == UpperChar(s[i])
  {
    seq(|s|, i requires 0 <= i < |s| => UpperChar(s[i]))
  }

  /** `s.substring(0, 2)` */
  function Prefix2(s: string): (p: string)
    ensures |p| == Min(2, |s|) && p == s[..|p|]
  {
    if |s| >= 2 then s[..2] else s
  }

  /** The name as it is checked and saved: trimmed, then upper-cased. */
  function Clean(name: string): string {
    Upper(Trim(name))
  }

  /** The initials of an existing name: trimmed, cut to two, upper-cased. */
  function ExistingInitials(e: string): string {
    Upper(Prefix2(Trim(e)))
  }

  lemma UpperPrefix2(t: string)
    ensures Upper(Prefix2(t)) == Prefix2(Upper(t))
  {
  }

  /** A trimmed name has no surrounding space, so trimming again is a no-op. */
  lemma TrimBare(u: string)
    requires |u| > 0 ==> !IsSpace(u[0]) && !IsSpace(u[|u| - 1])
    ensures Trim(u) == u
  {
    assert LeadingSpaces(u) == 0;
    assert TrailingSpaces(u) == 0;
  }

  /** A saved name is already clean. */
  lemma CleanIdempotent(x: string)
    ensures Clean(Clean(x)) == Clean(x)
  {
    var u := Clean(x);
    if |u| > 0 {
      assert IsSpace(u[0]) <==> IsSpace(Trim(x)[0]);
      assert IsSpace(u[|u| - 1]) <==> IsSpace(Trim(x)[|u| - 1]);
    }
    TrimBare(u);
  }

  /** A name is accepted when its clean form has at least two letters and
      its initials differ from those of every existing name. */
  function NameValid(name: string, existing: seq<string>): (ok: bool)
    ensures ok <==> |Clean(name)| >= 2 &&
                    forall e :: e in existing ==> Prefix2(Clean(e)) != Prefix2(Clean(name))
  {
    var clean := Clean(name);
    var ok := |clean| >= 2 && !(exists k :: 0 <= k < |existing| && ExistingInitials(existing[k]) == Prefix2(clean));
    assert forall e :: ExistingInitials(e) == Prefix2(Clean(e)) by {
      forall e { UpperPrefix2(Trim(e)); }
    }
    ok
  }

  /** The names of a player list whose initials are pairwise distinct. */
  predicate DistinctInitials(names: seq<string>) {
    forall i, j :: 0 <= i < j < |names| ==> Prefix2(Clean(names[i])) != Prefix2(Clean(names[j]))
  }

  /** Saving an accepted name keeps the initials of all players distinct. */
  lemma {:induction false} SaveKeepsDistinctInitials(names: seq<string>, name: string)
    requires DistinctInitials(names) && NameValid(name, names)
    ensures DistinctInitials(names + [Clean(name)])
  {
    CleanIdempotent(name);
    var ns := names + [Clean(name)];
    forall i, j | 0 <= i < j < |ns|
      ensures Prefix2(Clean(ns[i])) != Prefix2(Clean(ns[j]))
    {
      if j == |names| {
        assert ns[i] in names;
      }
    }
  }

  // ---------------------------------------------------------------------
  // Validity and auto-balance

  /** The form may be saved: 100 points in all, at least 10 health and 10
      happiness points, at most 80 money points and an accepted name. */
  predicate FormValid(tPts: int, money: int, health: int, happy: int, nameOk: bool) {
    tPts + money + health + happy == 100 && health >= 10 && happy >= 10 && nameOk && money <= 80
  }

  datatype Allocation = Allocation(money: int, health: int, happy: int)

  /** `autoBalanceSetup`: after the 10-point minimums, a random share of the
      remaining points goes to money (capped at 80) and the rest is split
      at random between health and happiness.  `drawMoney` and
      `drawHealth` are the two random draws. */
  function AutoBalance(age: int, drawMoney: nat, drawHealth: nat): (r: Option<Allocation>)
    ensures age <= 0 <==> r.None?
    ensures r.Some? ==>
              && r.value.money + r.value.health + r.value.happy == 100 - TimePoints(age)
              && 0 <= r.value.money <= 80
              && 10 <= r.value.health <= 80 && 10 <= r.value.happy <= 80
  {
    if age <= 0 then None
    else
      var remaining := 100 - TimePoints(age) - 20;
      var m0 := Pick(drawMoney, remaining + 1);
      var m := if m0 > 80 then 80 else m0;
      var left := remaining - m;
      var s := Pick(drawHealth, left + 1);
      Some(Allocation(m, 10 + s, 10 + (left - s)))
  }

  /** For every positive age and every draw the balanced form is valid
      exactly when the name is. */
  lemma AutoBalanceValid(age: int, drawMoney: nat, drawHealth: nat, nameOk: bool)
    requires age > 0
    ensures var a := AutoBalance(age, drawMoney, drawHealth).value;
            FormValid(TimePoints(age), a.money, a.health, a.happy, nameOk) <==> nameOk
  {
  }

  // ---------------------------------------------------------------------
  // The form

  datatype AgeAlert = TooYoung | Inspiration | TooOld

  /** The setup form of one player.  `age` is the age field as parsed,
      `None` when it is empty or does not parse. */
  class SetupForm {
    var name: string
    var age: Option<int>
    var money: int
    var health: int
    var happy: int
    var color: string
    var icon: string
    var ageAlert: Option<AgeAlert>

    /** A fresh form for the next player, with the first free color and
        icon. */
    constructor(color: string, icon: string)
      ensures this.name == "" && this.age == None && this.ageAlert == None
      ensures this.money == 0 && this.health == 0 && this.happy == 0
      ensures this.color == color && this.icon == icon
    {
      this.name := "";
      this.age := None;
      this.money := 0;
      this.health := 0;
      this.happy := 0;
      this.color := color;
      this.icon := icon;
      this.ageAlert := None;
    }

    function TimePointsNow(): int
      reads this
    {
      TimePoints(AgeNumber(age))
    }

    function Total(): int
      reads this
    {
      TimePointsNow() + money + health + happy
    }

    /** The validity flag the form recomputes on every change. */
    predicate IsValid(existing: seq<string>)
      reads this
    {
      FormValid(TimePointsNow(), money, health, happy, NameValid(name, existing))
    }

    method SetName(n: string)
      modifies this
      ensures name == n && age == old(age) && money == old(money) && health == old(health) && happy == old(happy)
      ensures color == old(color) && icon == old(icon) && ageAlert == old(ageAlert)
    {
      name := n;
    }

    method SetAge(a: Option<int>)
      modifies this
      ensures age == a && name == old(name) && money == old(money) && health == old(health) && happy == old(happy)
      ensures color == old(color) && icon == old(icon) && ageAlert == old(ageAlert)
    {
      age := a;
    }

    /** A slider move: the three sliders range over 0..80. */
    method Slide(m: int, h: int, hp: int)
      requires 0 <= m <= 80 && 0 <= h <= 80 && 0 <= hp <= 80
      modifies this
      ensures money == m && health == h && happy == hp
      ensures name == old(name) && age == old(age) && color == old(color) && icon == old(icon)
      ensures ageAlert == old(ageAlert)
    {
      money, health, happy := m, h, hp;
    }

    /** `validateAge`, run when the age field loses focus.  An age under 6
        or over 99 is cleared with an alert; 70..90 gets an encouraging
        alert; every age of at least 6 is auto-balanced with the age read
        before the clearing. */
    method ValidateAge(drawMoney: nat, drawHealth: nat)
      modifies this
      ensures name == old(name) && color == old(color) && icon == old(icon)
      ensures old(age).None? ==> age == None && money == old(money) && health == old(health)
                                 && happy == old(happy) && ageAlert == old(ageAlert)
      ensures old(age).Some? ==>
                var n := old(age).value;
                && age == (if 0 <= n < 6 || n > 99 then None else old(age))
                && ageAlert == (if 0 <= n < 6 then Some(TooYoung)
                                else if 70 <= n <= 90 then Some(Inspiration)
                                else if n > 99 then Some(TooOld) else old(ageAlert))
                && (n >= 6 ==> Allocation(money, health, happy) == AutoBalance(n, drawMoney, drawHealth).value)
                && (n < 6 ==> money == old(money) && health == old(health) && happy == old(happy))
      ensures old(age).Some? && 6 <= old(age).value <= 99 ==>
                forall existing :: IsValid(existing) <==> NameValid(name, existing)
      ensures old(age).Some? && old(age).value > 99 ==> Total() == 85 && forall existing :: !IsValid(existing)
    {
      if age.None? {
        return;
      }
      var n := age.value;
      if 0 <= n < 6 {
        ageAlert := Some(TooYoung);
        age := None;
      } else if 70 <= n <= 90 {
        ageAlert := Some(Inspiration);
      } else if n > 99 {
        ageAlert := Some(TooOld);
        age := None;
      }
      if n >= 6 {
        var a := AutoBalance(n, drawMoney, drawHealth).value;
        money, health, happy := a.money, a.health, a.happy;
      }
    }

    /** `handleSave`: an invalid form sends nothing; a valid one sends a
        new player with the form's goals, 5000 money and 5000 passive
        income, at the start, outside any route. */
    method Save(existing: seq<string>) returns (d: Option<PlayerDraft>)
      ensures d.Some? <==> IsValid(existing)
      ensures d.Some? ==>
                d.value == PlayerDraft(Clean(name), color, icon, Metas(TimePointsNow(), money, health, happy),
                                       Stats(0, 5000, 0, 0, 5000), false, None, 0, [], 0)
      ensures d.Some? ==>
                var g := d.value.metas;
                g.t + g.d + g.s + g.h == 100 && g.s >= 10 && g.h >= 10 && g.d <= 80
                && NameValid(d.value.name, existing)
    {
      if !IsValid(existing) {
        return None;
      }
      CleanIdempotent(name);
      assert forall e :: Prefix2(Clean(e)) != Prefix2(Clean(name)) ==>
                         Prefix2(Clean(e)) != Prefix2(Clean(Clean(name)));
      d := Some(PlayerDraft(Clean(name), color, icon, Metas(TimePointsNow(), money, health, happy),
                            Stats(0, 5000, 0, 0, 5000), false, None, 0, [], 0));
    }
  }
}
