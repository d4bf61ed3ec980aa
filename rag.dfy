/** The static knowledge lookup of `src/services/ragService.ts`: sentences
    per interview category and interview tips, a keyword filter that builds
    the context spliced into a prompt, and two operations on the store. */
module Rag {
  import opened Text

  /** The two confidence levels the lookup reports. */
  datatype Confidence = High | Low {
    function Value(): real { if High? then 0.8 else 0.6 }
  }

  datatype RagContext = RagContext(relevantInfo: string, sources: seq<string>, confidence: Confidence)

  /** The two source labels every context reports. */
  function Sources(): seq<string> { ["Knowledge Base", "Interview Best Practices"] }

  /** `record[key] || []` on a record of string lists. */
  function Lookup(m: map<string, seq<string>>, key: string): seq<string> {
    if key in m then m[key] else []
  }

  /** `s.slice(0, n)`. */
  function Take(s: seq<string>, n: nat): (r: seq<string>)
    ensures |r| == Min(n, |s|) && r == s[..|r|]
  {
    if |s| <= n then s else s[..n]
  }

  // ---------------------------------------------------------------------
  // Keyword filter

  /** `questionTitle.toLowerCase().split(' ')`. */
  function Keywords(title: string): (keywords: seq<string>)
    ensures |keywords| >= 1
  {
    SplitOn(Lower(title), ' ')
  }

  /** `keywords.some(keyword => info.toLowerCase().includes(keyword))`. */
  predicate MatchesAny(info: string, keywords: seq<string>) {
    exists j :: 0 <= j < |keywords| && Contains(Lower(info), keywords[j])
  }

  /** `knowledge.filter(info => MatchesAny(info, keywords))`. */
  function Relevant(knowledge: seq<string>, keywords: seq<string>): (r: seq<string>)
    ensures |r| <= |knowledge|
  {
    if |knowledge| == 0 then []
    else (if MatchesAny(knowledge[0], keywords) then [knowledge[0]] else [])
         + Relevant(knowledge[1..], keywords)
  }

  /** `a` is `b` with some elements left out, the rest in their order. */
  predicate IsSubsequence(a: seq<string>, b: seq<string>)
    decreases |b|
  {
    if |a| == 0 then true
    else if |b| == 0 then false
    else (a[0] == b[0] && IsSubsequence(a[1..], b[1..])) || IsSubsequence(a, b[1..])
  }

  /** The filter keeps sentences in their order and invents none. */
  lemma {:induction false} RelevantIsSubsequence(knowledge: seq<string>, keywords: seq<string>)
    ensures IsSubsequence(Relevant(knowledge, keywords), knowledge)
    decreases |knowledge|
  {
    if |knowledge| > 0 {
      var rest := Relevant(knowledge[1..], keywords);
      RelevantIsSubsequence(knowledge[1..], keywords);
      if MatchesAny(knowledge[0], keywords) {
        assert Relevant(knowledge, keywords) == [knowledge[0]] + rest;
        assert ([knowledge[0]] + rest)[1..] == rest;
      } else {
        assert Relevant(knowledge, keywords) == rest;
      }
    }
  }

  /** A sentence is kept exactly when it is in the category's list and its
      lower-cased text includes some keyword. */
  lemma {:induction false} RelevantMembers(knowledge: seq<string>, keywords: seq<string>, info: string)
    ensures info in Relevant(knowledge, keywords) <==> info in knowledge && MatchesAny(info, keywords)
    decreases |knowledge|
  {
    if |knowledge| > 0 {
      RelevantMembers(knowledge[1..], keywords, info);
      assert knowledge == [knowledge[0]] + knowledge[1..];
    }
  }

  /** The filter keeps every copy of a matching sentence and no copy of
      any other. */
  lemma {:induction false} RelevantCounts(knowledge: seq<string>, keywords: seq<string>, info: string)
    ensures multiset(Relevant(knowledge, keywords))[info]
            == if MatchesAny(info, keywords) then multiset(knowledge)[info] else 0
    decreases |knowledge|
  {
    if |knowledge| > 0 {
      RelevantCounts(knowledge[1..], keywords, info);
      assert knowledge == [knowledge[0]] + knowledge[1..];
    }
  }

  /** An empty keyword matches every sentence, so the whole list is kept. */
  lemma {:induction false} EmptyKeywordKeepsAll(knowledge: seq<string>, keywords: seq<string>)
    requires "" in keywords
    ensures Relevant(knowledge, keywords) == knowledge
    decreases |knowledge|
  {
    if |knowledge| > 0 {
      var j :| 0 <= j < |keywords| && keywords[j] == "";
      ContainsEmpty(Lower(knowledge[0]));
      assert MatchesAny(knowledge[0], keywords);
      EmptyKeywordKeepsAll(knowledge[1..], keywords);
    }
  }

  /** An empty title and a title with two consecutive spaces both yield an
      empty keyword, and with it every sentence of the category. */
  lemma BlankKeywordTitles(knowledge: seq<string>, title: string, i: nat)
    requires title == "" || (i + 1 < |title| && title[i] == ' ' && title[i + 1] == ' ')
    ensures "" in Keywords(title)
    ensures Relevant(knowledge, Keywords(title)) == knowledge
  {
    if title == "" {
      assert Lower(title) == "";
      SplitOnEmpty(' ');
    } else {
      AdjacentSeparatorsGiveEmptyPiece(Lower(title), ' ', i);
    }
    EmptyKeywordKeepsAll(knowledge, Keywords(title));
  }

  // ---------------------------------------------------------------------
  // Context

  /** Up to three matches, two category sentences, two category tips and
      one general tip, in that order. */
  function ContextParts(relevant: seq<string>, knowledge: seq<string>,
                        categoryTips: seq<string>, generalTips: seq<string>): (parts: seq<string>)
    ensures |parts| <= 8
  {
    Take(relevant, 3) + Take(knowledge, 2) + Take(categoryTips, 2) + Take(generalTips, 1)
  }

  /** The context for a category and a question title. */
  function ContextFor(knowledgeBase: map<string, seq<string>>, interviewTips: map<string, seq<string>>,
                      category: string, title: string): (ctx: RagContext)
    ensures ctx.sources == Sources()
    ensures ctx.confidence == High <==>
              exists i :: 0 <= i < |Lookup(knowledgeBase, category)|
                          && MatchesAny(Lookup(knowledgeBase, category)[i], Keywords(title))
  {
    var knowledge := Lookup(knowledgeBase, category);
    var generalTips := Lookup(interviewTips, "general");
    var categoryTips := Lookup(interviewTips, category);
    var relevant := Relevant(knowledge, Keywords(title));
    RelevantNonEmpty(knowledge, Keywords(title));
    var parts := ContextParts(relevant, knowledge, categoryTips, generalTips);
    RagContext(Join(parts, '\n'), Sources(), if |relevant| > 0 then High else Low)
  }

  /** Some sentence is kept exactly when some sentence matches a keyword. */
  lemma {:induction false} RelevantNonEmpty(knowledge: seq<string>, keywords: seq<string>)
    ensures |Relevant(knowledge, keywords)| > 0 <==>
              exists i :: 0 <= i < |knowledge| && MatchesAny(knowledge[i], keywords)
    decreases |knowledge|
  {
    if |knowledge| > 0 {
      RelevantNonEmpty(knowledge[1..], keywords);
      if exists i :: 0 <= i < |knowledge| && MatchesAny(knowledge[i], keywords) {
        var i :| 0 <= i < |knowledge| && MatchesAny(knowledge[i], keywords);
        if i > 0 {
          assert knowledge[1..][i - 1] == knowledge[i];
        }
      }
    }
  }

  /** The context has at most eight parts: the first matches, then the
      first category sentences, the first category tips and the first
      general tip, each block at the start of its list. */
  lemma ContextPartsLayout(relevant: seq<string>, knowledge: seq<string>,
                           categoryTips: seq<string>, generalTips: seq<string>)
    ensures var parts := ContextParts(relevant, knowledge, categoryTips, generalTips);
            var a, b, c, d := Min(3, |relevant|), Min(2, |knowledge|), Min(2, |categoryTips|), Min(1, |generalTips|);
            && |parts| == a + b + c + d <= 8
            && parts[..a] == relevant[..a]
            && parts[a..a + b] == knowledge[..b]
            && parts[a + b..a + b + c] == categoryTips[..c]
            && parts[a + b + c..] == generalTips[..d]
  {
  }

  /** When no sentence contains a line break, each part of the context is
      one line of its text. */
  lemma ContextLines(knowledgeBase: map<string, seq<string>>, interviewTips: map<string, seq<string>>,
                     category: string, title: string)
    requires forall s :: s in Lookup(knowledgeBase, category) ==> '\n' !in s
    requires forall s :: s in Lookup(interviewTips, category) ==> '\n' !in s
    requires forall s :: s in Lookup(interviewTips, "general") ==> '\n' !in s
    ensures var knowledge := Lookup(knowledgeBase, category);
            var parts := ContextParts(Relevant(knowledge, Keywords(title)), knowledge,
                                      Lookup(interviewTips, category), Lookup(interviewTips, "general"));
            |parts| > 0 ==> SplitOn(ContextFor(knowledgeBase, interviewTips, category, title).relevantInfo, '\n') == parts
  {
    var knowledge := Lookup(knowledgeBase, category);
    var relevant := Relevant(knowledge, Keywords(title));
    var parts := ContextParts(relevant, knowledge, Lookup(interviewTips, category), Lookup(interviewTips, "general"));
    forall k | 0 <= k < |parts| ensures '\n' !in parts[k] {
      assert parts[k] in parts;
      if parts[k] in relevant {
        RelevantMembers(knowledge, Keywords(title), parts[k]);
      }
    }
    if |parts| > 0 {
      SplitOnJoin(parts, '\n');
    }
  }

  /** A category that has neither sentences nor tips gets only the first
      general tip, with the low confidence. */
  lemma UnknownCategoryGetsGeneralTip(knowledgeBase: map<string, seq<string>>,
                                      interviewTips: map<string, seq<string>>,
                                      category: string, title: string)
    requires category !in knowledgeBase && category !in interviewTips
    ensures var ctx := ContextFor(knowledgeBase, interviewTips, category, title);
            var general := Lookup(interviewTips, "general");
            && ctx.relevantInfo == (if |general| > 0 then general[0] else "")
            && ctx.confidence == Low
  {
  }

  // ---------------------------------------------------------------------
  // Statistics

  /** Each category of the knowledge base with the length of its list. */
  function StatsOf(knowledgeBase: map<string, seq<string>>): (stats: map<string, nat>)
    ensures stats.Keys == knowledgeBase.Keys
    ensures forall c :: c in stats ==> stats[c] == |knowledgeBase[c]|
  {
    map c | c in knowledgeBase :: |knowledgeBase[c]|
  }

  /** After one sentence is added to a category, that category's count has
      grown by one (from zero when it is new) and every other count is the
      same. The requires are the effects `RagService.AddKnowledge` promises. */
  lemma StatsAfterAdd(before: map<string, seq<string>>, after: map<string, seq<string>>,
                      category: string, information: string)
    requires after.Keys == before.Keys + {category}
    requires after[category] == Lookup(before, category) + [information]
    requires forall c :: c in before && c != category ==> after[c] == before[c]
    ensures StatsOf(after) == StatsOf(before)[category := |Lookup(before, category)| + 1]
    ensures category in before ==> StatsOf(after)[category] == StatsOf(before)[category] + 1
    ensures category !in before ==> StatsOf(after)[category] == 1
  {
    var expected := StatsOf(before)[category := |Lookup(before, category)| + 1];
    assert StatsOf(after).Keys == expected.Keys;
  }

  // ---------------------------------------------------------------------
  // The service object

  /** `RAGService`: a knowledge base and the interview tips, both records
      of string lists keyed by category. */
  class RagService {
    var knowledgeBase: map<string, seq<string>>
    var interviewTips: map<string, seq<string>>

    /** A fresh service holds the built-in sentences and tips. */
    constructor ()
      ensures knowledgeBase == DefaultKnowledge && interviewTips == DefaultTips
    {
      knowledgeBase := DefaultKnowledge;
      interviewTips := DefaultTips;
    }

    /** `getRelevantContext`, on the current store (see `ContextFor`). */
    function GetRelevantContext(category: string, questionTitle: string): (ctx: RagContext)
      reads this
      ensures ctx.sources == Sources()
      ensures ctx.confidence == High <==>
                exists i :: 0 <= i < |Lookup(knowledgeBase, category)|
                            && MatchesAny(Lookup(knowledgeBase, category)[i], Keywords(questionTitle))
    {
      ContextFor(knowledgeBase, interviewTips, category, questionTitle)
    }

    /** `addKnowledge`: appends a sentence to a category, creating the
        category when it is missing. */
    method AddKnowledge(category: string, information: string)
      modifies this
      ensures knowledgeBase.Keys == old(knowledgeBase).Keys + {category}
      ensures knowledgeBase[category] == Lookup(old(knowledgeBase), category) + [information]
      ensures forall c :: c in old(knowledgeBase) && c != category ==> knowledgeBase[c] == old(knowledgeBase)[c]
      ensures interviewTips == old(interviewTips)
    {
      if category !in knowledgeBase {
        knowledgeBase := knowledgeBase[category := []];
      }
      knowledgeBase := knowledgeBase[category := knowledgeBase[category] + [information]];
    }

    /** `getKnowledgeStats`: the number of sentences of every category. */
    method GetKnowledgeStats() returns (stats: map<string, nat>)
      ensures stats == StatsOf(knowledgeBase)
    {
      stats := map[];
      var remaining := knowledgeBase.Keys;
      while remaining != {}
        invariant remaining <= knowledgeBase.Keys
        invariant stats.Keys == knowledgeBase.Keys - remaining
        invariant forall c :: c in stats ==> stats[c] == |knowledgeBase[c]|
        decreases remaining
      {
        var c :| c in remaining;
        stats := stats[c := |knowledgeBase[c]|];
        remaining := remaining - {c};
      }
    }
  }

  // ---------------------------------------------------------------------
  // The built-in data

  /** The sizes of the built-in knowledge base. */
  lemma DefaultStats()
    ensures StatsOf(DefaultKnowledge) == map["technical" := 6, "behavioral" := 5, "teamwork" := 5,
                                             "leadership" := 5, "problem-solving" := 5,
                                             "communication" := 5, "adaptability" := 5, "culture-fit" := 5]
  {
  }

  /** With the built-in data, a category that is not one of the built-in
      ones gets the first general tip alone. */
  lemma DefaultUnknownCategory(category: string, title: string)
    requires category !in DefaultKnowledge && category !in DefaultTips
    ensures ContextFor(DefaultKnowledge, DefaultTips, category, title)
              == RagContext("Prepara historias específicas que puedas adaptar a diferentes preguntas", Sources(), Low)
  {
    UnknownCategoryGetsGeneralTip(DefaultKnowledge, DefaultTips, category, title);
  }

  /** The built-in knowledge base: sentences per interview category. */
  const DefaultKnowledge: map<string, seq<string>> := map[
    "technical" := KnowledgeTechnical,
    "behavioral" := KnowledgeBehavioral,
    "teamwork" := KnowledgeTeamwork,
    "leadership" := KnowledgeLeadership,
    "problem-solving" := KnowledgeProblemSolving,
    "communication" := KnowledgeCommunication,
    "adaptability" := KnowledgeAdaptability,
    "culture-fit" := KnowledgeCultureFit
  ]

  /** The built-in interview tips: general ones and per category. */
  const DefaultTips: map<string, seq<string>> := map[
    "general" := TipsGeneral,
    "technical" := TipsTechnical,
    "behavioral" := TipsBehavioral
  ]

  const KnowledgeTechnical: seq<string> := [
    "Los React Hooks permiten usar estado y otras características de React en componentes funcionales",
    "useState es para manejo de estado local, useEffect para efectos secundarios",
    "Los custom hooks permiten reutilizar lógica entre componentes",
    "Las APIs RESTful siguen principios de arquitectura REST con métodos HTTP estándar",
    "GET para obtener datos, POST para crear, PUT para actualizar, DELETE para eliminar",
    "Los códigos de estado HTTP indican el resultado: 200 OK, 201 Created, 404 Not Found, 500 Server Error"
  ]
  const KnowledgeBehavioral: seq<string> := [
    "La metodología STAR (Situación, Tarea, Acción, Resultado) estructura respuestas comportamentales",
    "Incluir métricas y resultados cuantificables fortalece las respuestas",
    "Mostrar aprendizaje y crecimiento personal es valorado por los entrevistadores",
    "Los errores deben presentarse con honestidad, enfocándose en la solución y aprendizaje",
    "Las respuestas deben ser específicas y relevantes a la experiencia personal"
  ]
  const KnowledgeTeamwork: seq<string> := [
    "La comunicación efectiva es clave para el trabajo en equipo exitoso",
    "Escuchar activamente y buscar soluciones ganar-ganar resuelve conflictos",
    "Contribuir proactivamente al ambiente positivo mejora la productividad del equipo",
    "La colaboración cross-funcional requiere adaptación y flexibilidad",
    "Celebrar logros del equipo fortalece la cohesión grupal"
  ]
  const KnowledgeLeadership: seq<string> := [
    "El liderazgo sin autoridad formal requiere influencia y credibilidad",
    "Construir consenso y visión compartida es fundamental para liderar equipos",
    "Los líderes efectivos adaptan su estilo según la situación y el equipo",
    "La delegación efectiva empodera al equipo y desarrolla capacidades",
    "Los líderes deben ser ejemplo de los valores que promueven"
  ]
  const KnowledgeProblemSolving: seq<string> := [
    "Un proceso estructurado mejora la calidad de las soluciones",
    "Definir claramente el problema es el primer paso crítico",
    "Generar múltiples alternativas antes de decidir amplía las opciones",
    "Evaluar pros y contras ayuda a tomar decisiones informadas",
    "Documentar el proceso facilita el aprendizaje futuro"
  ]
  const KnowledgeCommunication: seq<string> := [
    "Adaptar el mensaje a la audiencia mejora la comprensión",
    "Las analogías simplifican conceptos técnicos complejos",
    "Los elementos visuales complementan la comunicación verbal",
    "Verificar comprensión asegura comunicación efectiva",
    "El feedback bidireccional mejora la calidad de la comunicación"
  ]
  const KnowledgeAdaptability: seq<string> := [
    "La mentalidad ágil abraza el cambio como oportunidad",
    "La comunicación constante con stakeholders reduce incertidumbre",
    "Priorizar por valor de negocio optimiza el impacto",
    "La arquitectura flexible facilita la adaptación a cambios",
    "El desarrollo iterativo permite ajustes continuos"
  ]
  const KnowledgeCultureFit: seq<string> := [
    "La autenticidad en las motivaciones genera confianza",
    "Conectar el trabajo personal con el impacto organizacional es valioso",
    "El balance entre aspectos técnicos y humanos muestra madurez",
    "La pasión genuina por el trabajo es contagiosa",
    "Los valores personales deben alinearse con los organizacionales"
  ]

  const TipsGeneral: seq<string> := [
    "Prepara historias específicas que puedas adaptar a diferentes preguntas",
    "Practica el método STAR para preguntas comportamentales",
    "Investiga la empresa y conecta tus respuestas con sus valores",
    "Prepara preguntas inteligentes para hacer al entrevistador",
    "Practica explicar conceptos técnicos de manera simple"
  ]
  const TipsTechnical: seq<string> := [
    "Explica tu proceso de pensamiento paso a paso",
    "Incluye trade-offs y consideraciones de diseño",
    "Menciona casos edge y manejo de errores",
    "Usa ejemplos concretos de tu experiencia",
    "Dibuja diagramas cuando sea apropiado"
  ]
  const TipsBehavioral: seq<string> := [
    "Sé específico con fechas, números y resultados",
    "Enfócate en tu contribución personal, no del equipo",
    "Incluye lo que aprendiste de cada experiencia",
    "Prepara ejemplos de éxitos y fracasos",
    "Practica contar historias de forma concisa"
  ]
}
