/** The agents screen: an avatar with each agent's initials, and the keys
    the agent and testimonial lists are rendered under. */
module Agents {
  import opened Arrays
  import opened Strings

  datatype Agent = Agent(
    id: nat,
    name: string,
    title: string,
    specialization: string,
    experience: string,
    rating: real,
    sales: string,
    location: string,
    description: string)

  datatype Testimonial = Testimonial(id: nat, text: string, author: string, property: string)

  // ---------------------------------------------------------------------
  // Initials: name.split(' ').map(n => n[0]).join('')

  /** `pieces.map(n => n[0])`: the first character of each piece, or
      `undefined` for an empty piece. */
  function FirstChars(pieces: seq<string>): (r: seq<Maybe<char>>)
    ensures |r| == |pieces|
  {
    seq(|pieces|, k requires 0 <= k < |pieces| => CharAt(pieces[k], 0))
  }

  /** How `join` renders one element: `undefined` as the empty string. */
  function Render(c: Maybe<char>): string
  {
    match c
    case Undefined => ""
    case Defined(ch) => [ch]
  }

  /** `cs.join('')`. */
  function JoinChars(cs: seq<Maybe<char>>): string
    decreases |cs|
  {
    if cs == [] then "" else Render(cs[0]) + JoinChars(cs[1..])
  }

  /** The initials drawn from a list of name pieces. */
  function InitialsOf(pieces: seq<string>): string
  {
    JoinChars(FirstChars(pieces))
  }

  /** The avatar text of an agent called `name`. */
  function Initials(name: string): string
  {
    InitialsOf(Split(name, ' '))
  }

  predicate NonEmpty(piece: string)
  {
    piece != ""
  }

  /** Initials of a piece followed by more pieces. */
  lemma InitialsOfCons(piece: string, rest: seq<string>)
    ensures InitialsOf([piece] + rest) == (if piece == "" then "" else [piece[0]]) + InitialsOf(rest)
  {
    assert FirstChars([piece] + rest)[1..] == FirstChars(rest);
  }

  /** The initials are the first characters of the non-empty pieces, in
      order: empty pieces contribute nothing. */
  lemma {:induction false} InitialsOfNonEmpty(pieces: seq<string>)
    ensures var kept := Filter(NonEmpty, pieces);
            |InitialsOf(pieces)| == |kept|
            && forall k :: 0 <= k < |kept| ==> InitialsOf(pieces)[k] == kept[k][0]
    decreases |pieces|
  {
    if pieces != [] {
      var rest := pieces[1..];
      assert pieces == [pieces[0]] + rest;
      InitialsOfCons(pieces[0], rest);
      InitialsOfNonEmpty(rest);
    }
  }

  /** There are no more initials than pieces, that is, than spaces plus one. */
  lemma InitialsLength(name: string)
    ensures |Initials(name)| == |Filter(NonEmpty, Split(name, ' '))|
    ensures |Initials(name)| <= |Split(name, ' ')| == Count(name, ' ') + 1
  {
    InitialsOfNonEmpty(Split(name, ' '));
  }

  /** An independent reading of the same rule: the initials are the
      characters that are not spaces and start the name or follow a space.
      `atStart` says whether the previous character was a space (or there
      was none). */
  function WordStarts(s: string, atStart: bool): string
    decreases |s|
  {
    if s == [] then ""
    else (if atStart && s[0] != ' ' then [s[0]] else "") + WordStarts(s[1..], s[0] == ' ')
  }

  /** The split-map-join expression picks exactly the word starts. Two
      statements proved together: from the start of a word, and from the
      middle of one (where the first piece has already been used). */
  lemma {:induction false} WordStartsSplit(s: string)
    ensures WordStarts(s, true) == InitialsOf(Split(s, ' '))
    ensures WordStarts(s, false) == InitialsOf(Split(s, ' ')[1..])
    decreases |s|
  {
    if s == [] {
      InitialsOfCons("", []);
      assert [""] + [] == [""];
    } else {
      var rest := Split(s[1..], ' ');
      WordStartsSplit(s[1..]);
      if s[0] == ' ' {
        assert Split(s, ' ') == [""] + rest;
        InitialsOfCons("", rest);
        assert ([""] + rest)[1..] == rest;
        assert WordStarts(s, true) == WordStarts(s[1..], true);
      } else {
        assert Split(s, ' ') == [[s[0]] + rest[0]] + rest[1..];
        InitialsOfCons([s[0]] + rest[0], rest[1..]);
        assert ([[s[0]] + rest[0]] + rest[1..])[1..] == rest[1..];
        assert WordStarts(s, true) == [s[0]] + WordStarts(s[1..], false);
        assert WordStarts(s, false) == WordStarts(s[1..], false);
      }
    }
  }

  lemma InitialsAreWordStarts(name: string)
    ensures Initials(name) == WordStarts(name, true)
  {
    WordStartsSplit(name);
  }

  /** A name of two space-free words joined by one space has two initials:
      the first letters of the words. */
  lemma TwoWordInitials(first: string, last: string)
    requires first != "" && last != ""
    requires ' ' !in first && ' ' !in last
    ensures Initials(first + " " + last) == [first[0], last[0]]
  {
    SplitAfterPiece(first, ' ', last);
    SplitSinglePiece(last, ' ');
    InitialsOfCons(first, [last]);
    InitialsOfCons(last, []);
  }

  // ---------------------------------------------------------------------
  // The sample agents and testimonials

  const SampleAgents: seq<Agent> := [
    Agent(1, "Sarah Johnson", "Senior Real Estate Agent", "Luxury Properties", "8 years", 4.9,
          "150+ properties sold", "Beverly Hills, CA",
          "Specializing in luxury properties with a focus on personalized service and market expertise."),
    Agent(2, "Michael Chen", "Property Investment Specialist", "Commercial & Investment", "12 years", 4.8,
          "200+ properties sold", "Manhattan, NY",
          "Expert in commercial real estate and investment properties. Helping clients build wealth through real estate."),
    Agent(3, "Emily Rodriguez", "First-Time Buyer Specialist", "Residential Properties", "6 years", 4.9,
          "120+ properties sold", "Austin, TX",
          "Passionate about helping first-time buyers navigate the real estate market with confidence."),
    Agent(4, "David Thompson", "Luxury Home Consultant", "Luxury & Waterfront", "15 years", 5.0,
          "300+ properties sold", "Miami, FL",
          "Premier agent for luxury and waterfront properties with an unmatched track record.")
  ]

  const SampleTestimonials: seq<Testimonial> := [
    Testimonial(1,
      "Sarah helped us find our dream home in just two weeks. Her knowledge of the luxury market is unparalleled.",
      "Jennifer & Mark Wilson", "Beverly Hills Villa - $2.3M"),
    Testimonial(2,
      "Michael's investment advice has helped us build a strong real estate portfolio. Highly recommended!",
      "Robert Chen", "Commercial Building - $5.2M"),
    Testimonial(3,
      "Emily made our first home purchase stress-free. She explained everything and was always available.",
      "Ashley & Tom Miller", "Austin Family Home - $450K")
  ]

  /** The featured agent's avatar text, written out by hand on the screen. */
  const FeaturedAvatarText: string := "DT"

  /** The hand-written featured avatar agrees with the initials computed
      from the featured agent's name. */
  lemma FeaturedAvatarMatches()
    ensures Initials(SampleAgents[3].name) == FeaturedAvatarText
  {
    var first, last := "David", "Thompson";
    assert SampleAgents[3].name == first + " " + last;
    TwoWordInitials(first, last);
  }

  /** Every sample agent's name is two words and one space, so each avatar
      shows two initials. */
  lemma SampleAgentsHaveTwoInitials(a: Agent)
    requires a in SampleAgents
    ensures |Initials(a.name)| == 2
  {
    var first, last;
    if a == SampleAgents[0] {
      first, last := "Sarah", "Johnson";
    } else if a == SampleAgents[1] {
      first, last := "Michael", "Chen";
    } else if a == SampleAgents[2] {
      first, last := "Emily", "Rodriguez";
    } else {
      first, last := "David", "Thompson";
    }
    assert a.name == first + " " + last;
    TwoWordInitials(first, last);
  }

  // ---------------------------------------------------------------------
  // List keys: item.id.toString()

  function Key(id: nat): string
  {
    NatToString(id)
  }

  /** Items with distinct ids get distinct keys. */
  lemma KeysDistinct(ids: seq<nat>)
    requires forall i, j :: 0 <= i < j < |ids| ==> ids[i] != ids[j]
    ensures forall i, j :: 0 <= i < j < |ids| ==> Key(ids[i]) != Key(ids[j])
  {
    forall i, j | 0 <= i < j < |ids|
      ensures Key(ids[i]) != Key(ids[j])
    {
      if Key(ids[i]) == Key(ids[j]) {
        NatToStringInjective(ids[i], ids[j]);
      }
    }
  }

  function AgentIds(agents: seq<Agent>): seq<nat>
  {
    seq(|agents|, k requires 0 <= k < |agents| => agents[k].id)
  }

  function TestimonialIds(testimonials: seq<Testimonial>): seq<nat>
  {
    seq(|testimonials|, k requires 0 <= k < |testimonials| => testimonials[k].id)
  }

  /** The sample agents' keys are distinct, and so are the testimonials'. */
  lemma SampleKeysDistinct()
    ensures var ids := AgentIds(SampleAgents);
            forall i, j :: 0 <= i < j < |ids| ==> Key(ids[i]) != Key(ids[j])
    ensures var ids := TestimonialIds(SampleTestimonials);
            forall i, j :: 0 <= i < j < |ids| ==> Key(ids[i]) != Key(ids[j])
  {
    var agentIds := AgentIds(SampleAgents);
    assert agentIds == [1, 2, 3, 4];
    KeysDistinct(agentIds);
    var testimonialIds := TestimonialIds(SampleTestimonials);
    assert testimonialIds == [1, 2, 3];
    KeysDistinct(testimonialIds);
  }
}
