/**
 * The parts of the mail body normalizer that the model states precisely: the
 * farewell cut-off, the whitespace steps, keyword-based action detection, the
 * feature record, and the assembly of the normalization result. The large
 * regular-expression lists (signatures, disclaimers, noise, courtesy phrases),
 * Unicode NFKD folding and entity extraction are stage functions supplied by
 * the caller.
 */
module EmailNormalizer {
  import opened Wrappers
  import opened Text

  // ---------------------------------------------------------------------
  // The stages the model does not spell out

  datatype Stages = Stages(
    /** Applying the signature and disclaimer pattern list, one `re.sub` after another. */
    signaturePatterns: string -> string,
    /** Applying the noise pattern list, before `remove_noise`'s final strip. */
    noisePatterns: string -> string,
    /** NFKD normalization followed by dropping combining characters. */
    unicodeFold: string -> string,
    /** Applying the courtesy-phrase pattern list of `extract_essential_content`. */
    courtesyPatterns: string -> string,
    /** The keys of the dictionary `extract_entities` returns. */
    entities: string -> set<string>)

  // ---------------------------------------------------------------------
  // Farewell cut-off

  /**
   * The farewell phrases, in the order they are tried. They are written in
   * lower case: under `re.IGNORECASE` the case of a literal pattern does not
   * matter, and `FoldEq` compares lower-case pattern characters.
   */
  const FarewellPhrases: seq<string> := [
    "muchas gracias por su apoyo",
    "gracias por su ayuda",
    "saludos cordiales",
    "atentamente",
    "cordialmente",
    "quedo atento",
    "quedamos atentos"
  ]

  /**
   * The cut-off after trying `phrases` in order, starting from `cutoff`: a
   * phrase lowers it to the start of its leftmost match when that is smaller.
   */
  function CutoffAfter(text: string, phrases: seq<string>, cutoff: nat): (c: nat)
    ensures c <= cutoff
    decreases |phrases|
  {
    if phrases == [] then cutoff
    else
      var next := match FindCI(phrases[0], text)
                  case Some(j) => if j < cutoff then j else cutoff
                  case None => cutoff;
      CutoffAfter(text, phrases[1..], next)
  }

  /**
   * The cut-off is the earliest position where some phrase matches, when that
   * is below the starting value: no phrase matches before it, and one matches
   * at it unless it is the starting value.
   */
  lemma {:induction false} CutoffAfterIsEarliest(text: string, phrases: seq<string>, cutoff: nat)
    ensures forall i, j :: 0 <= i < |phrases| && 0 <= j < CutoffAfter(text, phrases, cutoff) ==> !MatchesAtCI(phrases[i], text, j)
    ensures CutoffAfter(text, phrases, cutoff) < cutoff ==>
              exists i :: 0 <= i < |phrases| && MatchesAtCI(phrases[i], text, CutoffAfter(text, phrases, cutoff))
    decreases |phrases|
  {
    if phrases != [] {
      var m := FindCI(phrases[0], text);
      var next := match m
                  case Some(j) => if j < cutoff then j else cutoff
                  case None => cutoff;
      var c := CutoffAfter(text, phrases[1..], next);
      assert c == CutoffAfter(text, phrases, cutoff);
      CutoffAfterIsEarliest(text, phrases[1..], next);
      forall i, j | 0 <= i < |phrases| && 0 <= j < c ensures !MatchesAtCI(phrases[i], text, j) {
        if i > 0 {
          assert phrases[i] == phrases[1..][i - 1];
        }
      }
      if c < cutoff {
        if c < next {
          var i :| 0 <= i < |phrases[1..]| && MatchesAtCI(phrases[1..][i], text, c);
          assert phrases[i + 1] == phrases[1..][i];
        } else {
          assert MatchesAtCI(phrases[0], text, c);
        }
      }
    }
  }

  /** The text up to the earliest farewell phrase, stripped; the text itself when none occurs. */
  function CutAtFarewell(text: string): string {
    CutAt(text, FarewellPhrases)
  }

  /** The text up to the earliest match of any of `phrases`, stripped; the text itself when none occurs. */
  function CutAt(text: string, phrases: seq<string>): string {
    var c := CutoffAfter(text, phrases, |text|);
    if c < |text| then Strip(text[..c]) else text
  }

  /** Step 1 of `remove_signatures_and_disclaimers`, as its loop computes it. */
  method TruncateAtFarewell(text: string) returns (result: string)
    ensures result == CutAtFarewell(text)
  {
    result := TruncateAtEarliest(text, FarewellPhrases);
  }

  /** The loop of step 1 over a list of phrases. */
  method TruncateAtEarliest(text: string, phrases: seq<string>) returns (result: string)
    ensures result == CutAt(text, phrases)
  {
    var earliest: nat := |text|;
    var k := 0;
    while k < |phrases|
      invariant 0 <= k <= |phrases|
      invariant CutoffAfter(text, phrases[k..], earliest) == CutoffAfter(text, phrases, |text|)
    {
      var m := FindCI(phrases[k], text);
      if m.Some? && m.value < earliest {
        earliest := m.value;
      }
      assert phrases[k..][1..] == phrases[k + 1..];
      k := k + 1;
    }
    result := text;
    if earliest < |text| {
      result := Strip(text[..earliest]);
    }
  }

  /** No farewell phrase occurs: the text is left untouched. */
  lemma NoFarewellLeavesText(text: string)
    requires forall i, j :: 0 <= i < |FarewellPhrases| && 0 <= j <= |text| ==> !MatchesAtCI(FarewellPhrases[i], text, j)
    ensures CutAtFarewell(text) == text
  {
    NoMatchKeepsText(text, FarewellPhrases);
  }

  /** The same for any list of phrases. */
  lemma NoMatchKeepsText(text: string, phrases: seq<string>)
    requires forall i, j :: 0 <= i < |phrases| && 0 <= j <= |text| ==> !MatchesAtCI(phrases[i], text, j)
    ensures CutAt(text, phrases) == text
  {
    CutoffAfterIsEarliest(text, phrases, |text|);
  }

  /**
   * Some farewell phrase occurs: the text is cut at the earliest position where
   * any of them matches, and the kept part is stripped.
   */
  lemma FarewellCutsAtEarliest(text: string, p: nat, j: nat)
    requires p < |FarewellPhrases| && MatchesAtCI(FarewellPhrases[p], text, j)
    ensures exists c :: 0 <= c <= j && CutAtFarewell(text) == Strip(text[..c])
                     && (exists i :: 0 <= i < |FarewellPhrases| && MatchesAtCI(FarewellPhrases[i], text, c))
                     && (forall i, k :: 0 <= i < |FarewellPhrases| && 0 <= k < c ==> !MatchesAtCI(FarewellPhrases[i], text, k))
  {
    FarewellPhrasesNonEmpty();
    CutsAtEarliest(text, FarewellPhrases, p, j);
  }

  lemma FarewellPhrasesNonEmpty()
    ensures forall i :: 0 <= i < |FarewellPhrases| ==> |FarewellPhrases[i]| > 0
  {
  }

  /** The same for any list of phrases, one of which is non-empty and matches at `j`. */
  lemma CutsAtEarliest(text: string, phrases: seq<string>, p: nat, j: nat)
    requires p < |phrases| && |phrases[p]| > 0 && MatchesAtCI(phrases[p], text, j)
    ensures exists c :: 0 <= c <= j && CutAt(text, phrases) == Strip(text[..c])
                     && (exists i :: 0 <= i < |phrases| && MatchesAtCI(phrases[i], text, c))
                     && (forall i, k :: 0 <= i < |phrases| && 0 <= k < c ==> !MatchesAtCI(phrases[i], text, k))
  {
    var c := CutoffAfter(text, phrases, |text|);
    CutoffAfterIsEarliest(text, phrases, |text|);
    assert CutAt(text, phrases) == Strip(text[..c]);
  }

  // ---------------------------------------------------------------------
  // Whitespace steps

  /** `remove_signatures_and_disclaimers`: farewell cut, signature patterns, whitespace collapse. */
  function RemoveSignatures(text: string, st: Stages): (r: string)
    ensures WhitespaceNormal(r)
    ensures NonSpace(r) == NonSpace(st.signaturePatterns(CutAtFarewell(text)))
  {
    Standardize(st.signaturePatterns(CutAtFarewell(text)))
  }

  /** `remove_noise`: the noise patterns, then a strip. */
  function RemoveNoise(text: string, st: Stages): (r: string)
    ensures Trimmed(r)
  {
    Strip(st.noisePatterns(text))
  }

  /** `extract_essential_content`: the courtesy patterns, then the whitespace standardization. */
  function EssentialContent(text: string, st: Stages): (r: string)
    ensures WhitespaceNormal(r)
  {
    Standardize(st.courtesyPatterns(text))
  }

  // ---------------------------------------------------------------------
  // Key actions

  /** An action and the keywords that reveal it. */
  datatype ActionRule = ActionRule(name: string, keywords: seq<string>)

  const CrearKeywords: seq<string> := ["crear", "creacion", "nuevo", "nueva", "alta"]
  const ModificarKeywords: seq<string> := ["modificar", "cambiar", "cambio", "actualizar"]
  const DesbloquearKeywords: seq<string> := ["desbloquear", "desbloqueo", "restablecer"]
  const RenovarKeywords: seq<string> := ["renovar", "renovacion"]
  const EliminarKeywords: seq<string> := ["eliminar", "baja", "dar de baja", "desactivar"]
  const AccederKeywords: seq<string> := ["acceso", "acceder", "autorizacion", "habilitar"]
  const SolicitarKeywords: seq<string> := ["solicitar", "solicitud", "requiere", "necesita"]

  /** The action table, in the order the actions are reported. */
  const ActionTable: seq<ActionRule> := [
    ActionRule("crear", CrearKeywords),
    ActionRule("modificar", ModificarKeywords),
    ActionRule("desbloquear", DesbloquearKeywords),
    ActionRule("renovar", RenovarKeywords),
    ActionRule("eliminar", EliminarKeywords),
    ActionRule("acceder", AccederKeywords),
    ActionRule("solicitar", SolicitarKeywords)
  ]

  /** One of the keywords occurs in `t`: Python's `any(k in t for k in keywords)`. */
  predicate AnyOccurs(keywords: seq<string>, t: string) {
    exists k :: 0 <= k < |keywords| && IsSubstring(keywords[k], t)
  }

  /** The names of the rules of `table` whose keywords occur in `lowered`, in table order. */
  function ActionsFrom(lowered: string, table: seq<ActionRule>): seq<string>
    decreases |table|
  {
    if table == [] then []
    else (if AnyOccurs(table[0].keywords, lowered) then [table[0].name] else []) + ActionsFrom(lowered, table[1..])
  }

  /** `extract_key_actions`, as a value. */
  function KeyActions(text: string): seq<string> {
    ActionsFrom(Lower(text), ActionTable)
  }

  /** The loop of `extract_key_actions` over a rule table. */
  method DetectActions(lowered: string, table: seq<ActionRule>) returns (actions: seq<string>)
    ensures actions == ActionsFrom(lowered, table)
  {
    actions := [];
    var a := 0;
    while a < |table|
      invariant 0 <= a <= |table|
      invariant actions + ActionsFrom(lowered, table[a..]) == ActionsFrom(lowered, table)
    {
      assert table[a..][1..] == table[a + 1..];
      if AnyOccurs(table[a].keywords, lowered) {
        actions := actions + [table[a].name];
      }
      a := a + 1;
    }
  }

  /** `extract_key_actions`: lower-case the text once, then try every action in order. */
  method ExtractKeyActions(text: string) returns (actions: seq<string>)
    ensures actions == KeyActions(text)
  {
    var lowered := Lower(text);
    actions := DetectActions(lowered, ActionTable);
  }

  /** The names of a table's rules are pairwise different. */
  predicate DistinctNames(table: seq<ActionRule>) {
    forall i, j :: 0 <= i < j < |table| ==> table[i].name != table[j].name
  }

  /** Some rule of `table` is called `name`. */
  predicate HasRule(table: seq<ActionRule>, name: string) {
    exists i :: 0 <= i < |table| && table[i].name == name
  }

  /** The position of the rule called `name`. */
  function RankIn(table: seq<ActionRule>, name: string): (r: nat)
    requires HasRule(table, name)
    ensures r < |table| && table[r].name == name
    ensures forall i :: 0 <= i < r ==> table[i].name != name
  {
    if table[0].name == name then 0
    else
      assert HasRule(table[1..], name) by {
        var i :| 0 <= i < |table| && table[i].name == name;
        assert table[1..][i - 1] == table[i];
      }
      1 + RankIn(table[1..], name)
  }

  /** The number of rules of `table` whose keywords occur in `lowered`. */
  function TriggerCount(lowered: string, table: seq<ActionRule>): nat
    decreases |table|
  {
    if table == [] then 0 else B2N(AnyOccurs(table[0].keywords, lowered)) + TriggerCount(lowered, table[1..])
  }

  lemma TailDistinct(table: seq<ActionRule>)
    requires table != [] && DistinctNames(table)
    ensures DistinctNames(table[1..])
  {
    var tail := table[1..];
    forall i, j | 0 <= i < j < |tail| ensures tail[i].name != tail[j].name {
      assert tail[i] == table[i + 1] && tail[j] == table[j + 1];
    }
  }

  /** Every reported name is the name of a rule of the table, other than the first when it did not fire. */
  lemma {:induction false} ActionsFromNamesRules(lowered: string, table: seq<ActionRule>)
    ensures forall p :: 0 <= p < |ActionsFrom(lowered, table)| ==> HasRule(table, ActionsFrom(lowered, table)[p])
    decreases |table|
  {
    if table != [] {
      var tail := table[1..];
      ActionsFromNamesRules(lowered, tail);
      var rest := ActionsFrom(lowered, tail);
      var head := if AnyOccurs(table[0].keywords, lowered) then [table[0].name] else [];
      var r := head + rest;
      assert ActionsFrom(lowered, table) == r;
      forall p | 0 <= p < |r| ensures HasRule(table, r[p]) {
        if head != [] && p == 0 {
          assert table[0].name == r[p];
        } else {
          assert r[p] == rest[p - |head|];
          var i :| 0 <= i < |tail| && tail[i].name == rest[p - |head|];
          assert table[i + 1] == tail[i];
        }
      }
    }
  }

  /** For a table with distinct names, a rule's name is reported iff one of its keywords occurs. */
  lemma {:induction false} ActionsFromMembership(lowered: string, table: seq<ActionRule>)
    requires DistinctNames(table)
    ensures forall i :: 0 <= i < |table| ==> (table[i].name in ActionsFrom(lowered, table) <==> AnyOccurs(table[i].keywords, lowered))
    decreases |table|
  {
    if table != [] {
      var tail := table[1..];
      TailDistinct(table);
      ActionsFromMembership(lowered, tail);
      ActionsFromNamesRules(lowered, tail);
      var rest := ActionsFrom(lowered, tail);
      var head := if AnyOccurs(table[0].keywords, lowered) then [table[0].name] else [];
      assert ActionsFrom(lowered, table) == head + rest;
      assert table[0].name !in rest;
      forall i | 0 <= i < |table|
        ensures table[i].name in head + rest <==> AnyOccurs(table[i].keywords, lowered)
      {
        if i > 0 {
          assert table[i] == tail[i - 1];
        }
      }
    }
  }

  /** For a table with distinct names, the reported names come in table order, each at most once. */
  lemma {:induction false} ActionsFromOrdered(lowered: string, table: seq<ActionRule>)
    requires DistinctNames(table)
    ensures forall p :: 0 <= p < |ActionsFrom(lowered, table)| ==> HasRule(table, ActionsFrom(lowered, table)[p])
    ensures forall p, q :: 0 <= p < q < |ActionsFrom(lowered, table)| ==>
              RankIn(table, ActionsFrom(lowered, table)[p]) < RankIn(table, ActionsFrom(lowered, table)[q])
    decreases |table|
  {
    ActionsFromNamesRules(lowered, table);
    if table != [] {
      var tail := table[1..];
      TailDistinct(table);
      ActionsFromOrdered(lowered, tail);
      var rest := ActionsFrom(lowered, tail);
      var head := if AnyOccurs(table[0].keywords, lowered) then [table[0].name] else [];
      assert ActionsFrom(lowered, table) == head + rest;
      RanksShift(table, rest);
      OrderedPrepend(table, head, rest);
    }
  }

  /** Names of rules of the rest of the table keep their order in the whole table, one place later. */
  lemma RanksShift(table: seq<ActionRule>, rest: seq<string>)
    requires table != [] && DistinctNames(table)
    requires forall p :: 0 <= p < |rest| ==> HasRule(table[1..], rest[p])
    requires forall p, q :: 0 <= p < q < |rest| ==> RankIn(table[1..], rest[p]) < RankIn(table[1..], rest[q])
    ensures forall p :: 0 <= p < |rest| ==> HasRule(table, rest[p]) && RankIn(table, rest[p]) >= 1
    ensures forall p, q :: 0 <= p < q < |rest| ==> RankIn(table, rest[p]) < RankIn(table, rest[q])
  {
    forall p | 0 <= p < |rest|
      ensures HasRule(table, rest[p]) && RankIn(table, rest[p]) == 1 + RankIn(table[1..], rest[p])
    {
      RankInTail(table, rest[p]);
    }
  }

  /** Putting the first rule's name (rank 0) in front of names of later rules keeps them in order. */
  lemma OrderedPrepend(table: seq<ActionRule>, head: seq<string>, rest: seq<string>)
    requires table != [] && (head == [] || head == [table[0].name])
    requires forall p :: 0 <= p < |rest| ==> HasRule(table, rest[p]) && RankIn(table, rest[p]) >= 1
    requires forall p, q :: 0 <= p < q < |rest| ==> RankIn(table, rest[p]) < RankIn(table, rest[q])
    ensures forall p :: 0 <= p < |head + rest| ==> HasRule(table, (head + rest)[p])
    ensures forall p, q :: 0 <= p < q < |head + rest| ==> RankIn(table, (head + rest)[p]) < RankIn(table, (head + rest)[q])
  {
    var r := head + rest;
    forall p | 0 <= p < |r| ensures HasRule(table, r[p]) && (p >= |head| ==> r[p] == rest[p - |head|]) {
      if p < |head| {
        assert r[p] == table[0].name;
      }
    }
    forall p, q | 0 <= p < q < |r| ensures RankIn(table, r[p]) < RankIn(table, r[q]) {
      if p < |head| {
        assert RankIn(table, r[p]) == 0;
      }
    }
  }

  /** Past a first rule with another name, the rank of a name is one more than in the rest of the table. */
  lemma RankInTail(table: seq<ActionRule>, name: string)
    requires table != [] && DistinctNames(table) && HasRule(table[1..], name)
    ensures HasRule(table, name) && RankIn(table, name) == 1 + RankIn(table[1..], name)
  {
    var i :| 0 <= i < |table[1..]| && table[1..][i].name == name;
    assert table[i + 1] == table[1..][i];
  }

  /** One reported name per rule that fired. */
  lemma {:induction false} ActionsFromCount(lowered: string, table: seq<ActionRule>)
    ensures |ActionsFrom(lowered, table)| == TriggerCount(lowered, table) <= |table|
    decreases |table|
  {
    if table != [] { ActionsFromCount(lowered, table[1..]); }
  }

  lemma ActionTableDistinct()
    ensures DistinctNames(ActionTable)
  {
    assert ActionTable[0].name[0] == 'c' && ActionTable[1].name[0] == 'm';
    assert ActionTable[2].name[..2] == "de" && ActionTable[3].name[0] == 'r';
    assert ActionTable[4].name[0] == 'e' && ActionTable[5].name[0] == 'a';
    assert ActionTable[6].name[0] == 's' && ActionTable[2].name[..3] == "des";
  }

  /**
   * The detected actions: an action's name is present iff one of its keywords
   * occurs in the lower-cased text; names appear in table order, each at most
   * once, so there are at most seven.
   */
  lemma KeyActionsCharacterized(text: string)
    ensures forall i :: 0 <= i < |ActionTable| ==>
              (ActionTable[i].name in KeyActions(text) <==> AnyOccurs(ActionTable[i].keywords, Lower(text)))
    ensures forall p :: 0 <= p < |KeyActions(text)| ==> HasRule(ActionTable, KeyActions(text)[p])
    ensures forall p, q :: 0 <= p < q < |KeyActions(text)| ==>
              RankIn(ActionTable, KeyActions(text)[p]) < RankIn(ActionTable, KeyActions(text)[q])
    ensures |KeyActions(text)| == TriggerCount(Lower(text), ActionTable) <= |ActionTable|
  {
    ActionTableDistinct();
    ActionsFromMembership(Lower(text), ActionTable);
    ActionsFromOrdered(Lower(text), ActionTable);
    ActionsFromCount(Lower(text), ActionTable);
  }

  // ---------------------------------------------------------------------
  // Feature record

  datatype Features = Features(
    tieneUsuario: bool,
    tieneNombre: bool,
    tieneDui: bool,
    tieneSistema: bool,
    accionCrear: bool,
    accionModificar: bool,
    accionDesbloquear: bool,
    accionRenovar: bool,
    accionEliminar: bool,
    accionAcceder: bool,
    accionSolicitar: bool,
    involucraVpn: bool,
    involucraLicencia: bool,
    involucraContrasena: bool,
    involucraTarjeta: bool,
    numAcciones: nat,
    numEntidades: nat)

  function B2N(b: bool): nat { if b then 1 else 0 }

  /** `create_normalized_features`: flags and counts computed from the given text. */
  function CreateFeatures(text: string, entities: string -> set<string>): (f: Features)
    ensures f.numAcciones == |KeyActions(text)| && f.numEntidades == |entities(text)|
  {
    var e := entities(text);
    var actions := KeyActions(text);
    Features(
      tieneUsuario := "usuario" in e,
      tieneNombre := "nombre" in e,
      tieneDui := "dui" in e,
      tieneSistema := "sistema" in e,
      accionCrear := "crear" in actions,
      accionModificar := "modificar" in actions,
      accionDesbloquear := "desbloquear" in actions,
      accionRenovar := "renovar" in actions,
      accionEliminar := "eliminar" in actions,
      accionAcceder := "acceder" in actions,
      accionSolicitar := "solicitar" in actions,
      involucraVpn := "vpn" in e,
      involucraLicencia := "licencia" in e,
      involucraContrasena := "contrase\U{F1}a" in e,
      involucraTarjeta := "tarjeta" in e,
      numAcciones := |actions|,
      numEntidades := |e|)
  }

  /**
   * Each `accion_*` flag holds iff one of that action's keywords occurs in the
   * lower-cased text, and `num_acciones` is the number of flags that hold.
   */
  lemma FeatureFlagsCharacterized(text: string, entities: string -> set<string>)
    ensures var f := CreateFeatures(text, entities); var l := Lower(text);
      && (f.accionCrear <==> AnyOccurs(CrearKeywords, l))
      && (f.accionModificar <==> AnyOccurs(ModificarKeywords, l))
      && (f.accionDesbloquear <==> AnyOccurs(DesbloquearKeywords, l))
      && (f.accionRenovar <==> AnyOccurs(RenovarKeywords, l))
      && (f.accionEliminar <==> AnyOccurs(EliminarKeywords, l))
      && (f.accionAcceder <==> AnyOccurs(AccederKeywords, l))
      && (f.accionSolicitar <==> AnyOccurs(SolicitarKeywords, l))
  {
    KeyActionsCharacterized(text);
    var t := ActionTable;
    assert t[0].name == "crear" && t[0].keywords == CrearKeywords;
    assert t[1].name == "modificar" && t[1].keywords == ModificarKeywords;
    assert t[2].name == "desbloquear" && t[2].keywords == DesbloquearKeywords;
    assert t[3].name == "renovar" && t[3].keywords == RenovarKeywords;
    assert t[4].name == "eliminar" && t[4].keywords == EliminarKeywords;
    assert t[5].name == "acceder" && t[5].keywords == AccederKeywords;
    assert t[6].name == "solicitar" && t[6].keywords == SolicitarKeywords;
  }

  /** `num_acciones` is the number of `accion_*` flags that hold. */
  lemma FeatureCountIsFlagSum(text: string, entities: string -> set<string>)
    ensures var f := CreateFeatures(text, entities);
      f.numAcciones == B2N(f.accionCrear) + B2N(f.accionModificar) + B2N(f.accionDesbloquear)
                       + B2N(f.accionRenovar) + B2N(f.accionEliminar) + B2N(f.accionAcceder)
                       + B2N(f.accionSolicitar)
  {
    var l := Lower(text);
    FeatureFlagsCharacterized(text, entities);
    ActionsFromCount(l, ActionTable);
    ActionTableKeywords();
    FlagSum(CreateFeatures(text, entities), l, ActionTable);
  }

  lemma ActionTableKeywords()
    ensures |ActionTable| == 7
    ensures ActionTable[0].keywords == CrearKeywords && ActionTable[1].keywords == ModificarKeywords
    ensures ActionTable[2].keywords == DesbloquearKeywords && ActionTable[3].keywords == RenovarKeywords
    ensures ActionTable[4].keywords == EliminarKeywords && ActionTable[5].keywords == AccederKeywords
    ensures ActionTable[6].keywords == SolicitarKeywords
  {
  }

  lemma FlagSum(f: Features, l: string, t: seq<ActionRule>)
    requires |t| == 7 && f.numAcciones == TriggerCount(l, t)
    requires f.accionCrear == AnyOccurs(t[0].keywords, l) && f.accionModificar == AnyOccurs(t[1].keywords, l)
    requires f.accionDesbloquear == AnyOccurs(t[2].keywords, l) && f.accionRenovar == AnyOccurs(t[3].keywords, l)
    requires f.accionEliminar == AnyOccurs(t[4].keywords, l) && f.accionAcceder == AnyOccurs(t[5].keywords, l)
    requires f.accionSolicitar == AnyOccurs(t[6].keywords, l)
    ensures f.numAcciones == B2N(f.accionCrear) + B2N(f.accionModificar) + B2N(f.accionDesbloquear)
                             + B2N(f.accionRenovar) + B2N(f.accionEliminar) + B2N(f.accionAcceder)
                             + B2N(f.accionSolicitar)
  {
    TriggerCountOfSeven(l, t);
  }

  lemma TriggerCountOfSeven(lowered: string, t: seq<ActionRule>)
    requires |t| == 7
    ensures TriggerCount(lowered, t) ==
      B2N(AnyOccurs(t[0].keywords, lowered)) + B2N(AnyOccurs(t[1].keywords, lowered)) + B2N(AnyOccurs(t[2].keywords, lowered))
      + B2N(AnyOccurs(t[3].keywords, lowered)) + B2N(AnyOccurs(t[4].keywords, lowered)) + B2N(AnyOccurs(t[5].keywords, lowered))
      + B2N(AnyOccurs(t[6].keywords, lowered))
  {
    assert t[0..] == t && t[7..] == [];
    TriggerCountStep(lowered, t, 0);
    TriggerCountStep(lowered, t, 1);
    TriggerCountStep(lowered, t, 2);
    TriggerCountStep(lowered, t, 3);
    TriggerCountStep(lowered, t, 4);
    TriggerCountStep(lowered, t, 5);
    TriggerCountStep(lowered, t, 6);
  }

  lemma TriggerCountStep(lowered: string, table: seq<ActionRule>, k: nat)
    requires k < |table|
    ensures TriggerCount(lowered, table[k..]) == B2N(AnyOccurs(table[k].keywords, lowered)) + TriggerCount(lowered, table[k + 1..])
  {
    assert table[k..][1..] == table[k + 1..];
  }

  /** Each `tiene_*` / `involucra_*` flag holds iff that key is among the extracted entities. */
  lemma EntityFlagsCharacterized(text: string, entities: string -> set<string>)
    ensures var f := CreateFeatures(text, entities); var e := entities(text);
      && (f.tieneUsuario <==> "usuario" in e) && (f.tieneNombre <==> "nombre" in e)
      && (f.tieneDui <==> "dui" in e) && (f.tieneSistema <==> "sistema" in e)
      && (f.involucraVpn <==> "vpn" in e) && (f.involucraLicencia <==> "licencia" in e)
      && (f.involucraContrasena <==> "contrase\U{F1}a" in e) && (f.involucraTarjeta <==> "tarjeta" in e)
  {
  }

  // ---------------------------------------------------------------------
  // The normalization result

  datatype Statistics = Statistics(longitudOriginal: nat, longitudSinFirmas: nat, longitudFinal: nat)

  datatype Normalized = Normalized(
    textoNormalizado: string,
    textoLimpio: string,
    textoSinFirmas: string,
    acciones: seq<string>,
    entidades: set<string>,
    caracteristicas: Features,
    textoOriginal: string,
    estadisticas: Statistics)

  /**
   * `normalize_email_body`: the cleaning pipeline on one side, and actions,
   * entities and features computed from the ORIGINAL text on the other.
   */
  function NormalizeEmailBody(text: string, st: Stages): (r: Normalized)
    ensures r.textoOriginal == text
    ensures WhitespaceNormal(r.textoSinFirmas) && WhitespaceNormal(r.textoLimpio) && WhitespaceNormal(r.textoNormalizado)
    ensures r.estadisticas == Statistics(|text|, |r.textoSinFirmas|, |r.textoNormalizado|)
    ensures forall i :: 0 <= i < |ActionTable| ==>
              (ActionTable[i].name in r.acciones <==> AnyOccurs(ActionTable[i].keywords, Lower(text)))
    ensures r.caracteristicas.numAcciones == |r.acciones|
    ensures r.caracteristicas.numEntidades == |r.entidades|
  {
    var sinFirmas := RemoveSignatures(text, st);
    var limpio := Standardize(st.unicodeFold(RemoveNoise(sinFirmas, st)));
    var features := CreateFeatures(text, st.entities);
    var entities := st.entities(text);
    var actions := KeyActions(text);
    var essential := EssentialContent(limpio, st);
    KeyActionsCharacterized(text);
    Normalized(
      textoNormalizado := essential,
      textoLimpio := limpio,
      textoSinFirmas := sinFirmas,
      acciones := actions,
      entidades := entities,
      caracteristicas := features,
      textoOriginal := text,
      estadisticas := Statistics(|text|, |sinFirmas|, |essential|))
  }

  /**
   * Actions, entities and features do not depend on the cleaning stages: two
   * normalizers that agree on entity extraction agree on them.
   */
  lemma FeaturesIgnoreCleaning(text: string, st1: Stages, st2: Stages)
    requires st1.entities(text) == st2.entities(text)
    ensures NormalizeEmailBody(text, st1).acciones == NormalizeEmailBody(text, st2).acciones
    ensures NormalizeEmailBody(text, st1).entidades == NormalizeEmailBody(text, st2).entidades
    ensures NormalizeEmailBody(text, st1).caracteristicas == NormalizeEmailBody(text, st2).caracteristicas
  {
  }
}
