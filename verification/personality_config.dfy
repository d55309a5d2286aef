/** The constant personality catalog and its assignment weights, with the
    facts about them that the engine's functions rely on. */
module PersonalityConfig {
  import opened Types
  import Weighted

  const CasualFrequent := PersonalityProfile(
    "casual_frequent", "Comunicativo",
    "Pessoa que gosta de conversar e envia mensagens frequentemente",
    Frequency(30000, 120000, 60000),
    [(Text, 0.4), (Audio, 0.15), (Image, 0.2), (Video, 0.1), (Document, 0.05), (Sticker, 0.1), (Location, 0.0)],
    ["Oi!", "Olá!", "E aí?", "Tudo bem?", "Como vai?",
     "Que legal!", "Interessante!", "Verdade!", "Concordo!",
     "Haha", "rsrs", "kkk", "Legal!", "Show!",
     "Valeu!", "Obrigado!", "De nada!", "Imagina!",
     "Até mais!", "Tchau!", "Falou!", "Abraço!"],
    BehaviorTraits(0.8, 0.6, 0.4, 0.7, 0.3),
    ActiveHours(7, 23))

  const Professional := PersonalityProfile(
    "professional", "Profissional",
    "Pessoa mais formal e objetiva nas comunicações",
    Frequency(300000, 1800000, 900000),
    [(Text, 0.6), (Audio, 0.05), (Image, 0.1), (Video, 0.05), (Document, 0.2), (Sticker, 0.0), (Location, 0.0)],
    ["Bom dia!", "Boa tarde!", "Boa noite!",
     "Prezado", "Caro", "Cordialmente",
     "Obrigado pela informação", "Entendi",
     "Vou verificar", "Confirmo", "Perfeito",
     "Att.", "Abraços", "Saudações"],
    BehaviorTraits(0.9, 0.3, 0.1, 0.1, 0.1),
    ActiveHours(8, 18))

  const NightOwl := PersonalityProfile(
    "night_owl", "Noturno",
    "Pessoa mais ativa durante a noite",
    Frequency(120000, 600000, 300000),
    [(Text, 0.3), (Audio, 0.2), (Image, 0.25), (Video, 0.15), (Document, 0.0), (Sticker, 0.1), (Location, 0.0)],
    ["Opa!", "Fala aí!", "Beleza?", "Suave?",
     "Massa!", "Dahora!", "Sinistro!", "Top!",
     "Relaxa", "Tranquilo", "De boa", "Sussa",
     "Tmj", "Vlw", "Flw", "Abs"],
    BehaviorTraits(0.7, 0.5, 0.6, 0.8, 0.4),
    ActiveHours(20, 6))

  const Minimalist := PersonalityProfile(
    "minimalist", "Minimalista",
    "Pessoa que prefere mensagens curtas e diretas",
    Frequency(600000, 3600000, 1800000),
    [(Text, 0.8), (Audio, 0.05), (Image, 0.1), (Video, 0.0), (Document, 0.05), (Sticker, 0.0), (Location, 0.0)],
    ["Ok", "Sim", "Não", "Certo", "Entendi",
     "Blz", "Vlw", "Obg", "Tmj", "Flw",
     "Oi", "Tchau", "Até", "Fala", "Opa"],
    BehaviorTraits(0.6, 0.2, 0.1, 0.2, 0.1),
    ActiveHours(9, 22))

  const SocialButterfly := PersonalityProfile(
    "social_butterfly", "Social",
    "Pessoa muito sociável que adora compartilhar conteúdo",
    Frequency(60000, 300000, 180000),
    [(Text, 0.2), (Audio, 0.2), (Image, 0.3), (Video, 0.2), (Document, 0.0), (Sticker, 0.1), (Location, 0.0)],
    ["Gente!", "Pessoal!", "Galera!", "Amores!",
     "Que incrível!", "Amei!", "Perfeito!", "Maravilhoso!",
     "Compartilhando aqui", "Olha só!", "Vejam isso!",
     "Beijos!", "Amo vocês!", "Até logo!", "Xoxo"],
    BehaviorTraits(0.9, 0.8, 0.7, 0.9, 0.5),
    ActiveHours(6, 24))

  /** `PERSONALITY_PROFILES`, in declaration order. */
  const Profiles: seq<PersonalityProfile> :=
    [CasualFrequent, Professional, NightOwl, Minimalist, SocialButterfly]

  /** `DEFAULT_PERSONALITY_WEIGHTS`. */
  const DefaultWeights: map<string, real> := map[
    "casual_frequent" := 0.3,
    "professional" := 0.2,
    "night_owl" := 0.2,
    "minimalist" := 0.15,
    "social_butterfly" := 0.15]

  /** The weight table looked up by profile id; a missing id weighs 0. */
  function WeightOf(id: string): (w: real)
    ensures id in DefaultWeights ==> w == DefaultWeights[id]
    ensures id !in DefaultWeights ==> w == 0.0
  {
    if id in DefaultWeights then DefaultWeights[id] else 0.0
  }

  /** The weights of a catalog, in catalog order. */
  function CatalogWeights(catalog: seq<PersonalityProfile>): (ws: seq<real>)
    ensures |ws| == |catalog|
    ensures forall i :: 0 <= i < |catalog| ==> ws[i] == WeightOf(catalog[i].id)
  {
    seq(|catalog|, i requires 0 <= i < |catalog| => WeightOf(catalog[i].id))
  }

  /** Profile ids are pairwise distinct, so a lookup by id is unambiguous. */
  lemma ProfileIdsDistinct()
    ensures forall i, j :: 0 <= i < j < |Profiles| ==> Profiles[i].id != Profiles[j].id
  {
  }

  /** Every profile has `min < peak < max`: the interval range is never 0. */
  lemma FrequenciesWellFormed()
    ensures forall p | p in Profiles ::
      0 <= p.messageFrequency.min < p.messageFrequency.peak < p.messageFrequency.max
  {
  }

  /** The weight table has exactly one entry per catalog id. */
  lemma WeightsCoverCatalog()
    ensures forall p | p in Profiles :: p.id in DefaultWeights && WeightOf(p.id) > 0.0
    ensures forall id | id in DefaultWeights :: exists i :: 0 <= i < |Profiles| && Profiles[i].id == id
    ensures |DefaultWeights| == |Profiles|
  {
    assert DefaultWeights.Keys == {Profiles[0].id, Profiles[1].id, Profiles[2].id, Profiles[3].id, Profiles[4].id};
  }

  /** The weights, walked in catalog order, sum to exactly 1. */
  lemma WeightsSumToOne()
    ensures Weighted.Sum(CatalogWeights(Profiles)) == 1.0
  {
    var ws := CatalogWeights(Profiles);
    assert ws == [0.3, 0.2, 0.2, 0.15, 0.15];
    Weighted.SumOfFive(ws);
  }

  /** One profile's media preferences: all seven kinds in enumeration order,
      each weight in [0, 1], summing to exactly 1. */
  predicate MediaPreferencesOk(prefs: MediaPreferences)
  {
    && Keys(prefs) == AllKinds
    && (forall i | 0 <= i < |prefs| :: 0.0 <= prefs[i].1 <= 1.0)
    && Weighted.Sum(Weights(prefs)) == 1.0
  }

  lemma MediaPreferencesOfOne(p: PersonalityProfile)
    requires p in Profiles
    ensures MediaPreferencesOk(p.mediaPreferences)
  {
    if p == CasualFrequent {
      CasualFrequentWeightsOk();
    } else if p == Professional {
      ProfessionalWeightsOk();
    } else if p == NightOwl {
      NightOwlWeightsOk();
    } else if p == Minimalist {
      MinimalistWeightsOk();
    } else {
      SocialButterflyWeightsOk();
    }
  }

  lemma CasualFrequentWeightsOk()
    ensures MediaPreferencesOk(CasualFrequent.mediaPreferences)
  {
    SevenWeightsOk(CasualFrequent.mediaPreferences);
  }

  lemma ProfessionalWeightsOk()
    ensures MediaPreferencesOk(Professional.mediaPreferences)
  {
    SevenWeightsOk(Professional.mediaPreferences);
  }

  lemma NightOwlWeightsOk()
    ensures MediaPreferencesOk(NightOwl.mediaPreferences)
  {
    SevenWeightsOk(NightOwl.mediaPreferences);
  }

  lemma MinimalistWeightsOk()
    ensures MediaPreferencesOk(Minimalist.mediaPreferences)
  {
    SevenWeightsOk(Minimalist.mediaPreferences);
  }

  lemma SocialButterflyWeightsOk()
    ensures MediaPreferencesOk(SocialButterfly.mediaPreferences)
  {
    SevenWeightsOk(SocialButterfly.mediaPreferences);
  }

  /** A seven-entry list in enumeration order, with weights in [0, 1] that
      add up to 1, is well formed. */
  lemma SevenWeightsOk(prefs: MediaPreferences)
    requires |prefs| == 7 && forall i | 0 <= i < 7 :: prefs[i].0 == AllKinds[i] && 0.0 <= prefs[i].1 <= 1.0
    requires prefs[0].1 + prefs[1].1 + prefs[2].1 + prefs[3].1 + prefs[4].1 + prefs[5].1 + prefs[6].1 == 1.0
    ensures MediaPreferencesOk(prefs)
  {
    Weighted.SumOfSeven(Weights(prefs));
    assert Keys(prefs) == AllKinds;
  }

  /** Each profile lists all seven kinds in enumeration order, with
      non-negative weights summing to exactly 1. */
  lemma MediaPreferencesWellFormed()
    ensures forall p | p in Profiles :: MediaPreferencesOk(p.mediaPreferences)
  {
    forall p | p in Profiles
      ensures MediaPreferencesOk(p.mediaPreferences)
    {
      MediaPreferencesOfOne(p);
    }
  }

  /** Every behaviour trait is a probability. */
  lemma TraitsAreProbabilities()
    ensures forall p | p in Profiles :: p.behaviorTraits.InUnitInterval()
  {
  }

  /** Every vocabulary is non-empty. */
  lemma VocabulariesNonEmpty()
    ensures forall p | p in Profiles :: |p.vocabulary| > 0
  {
  }

  /** night_owl (20 to 6) is the only window that wraps past midnight;
      social_butterfly's end hour is 24, outside the documented 0-23 range;
      every other bound lies in 0-23. */
  lemma ActiveHoursAsWritten()
    ensures forall p | p in Profiles :: p.activeHours.start > p.activeHours.end <==> p == NightOwl
    ensures NightOwl.activeHours == ActiveHours(20, 6)
    ensures SocialButterfly.activeHours.end == 24
    ensures forall p | p in Profiles :: 0 <= p.activeHours.start <= 23
    ensures forall p | p in Profiles && p != SocialButterfly :: 0 <= p.activeHours.end <= 23
  {
  }
}
