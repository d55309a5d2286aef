/** The account-side helpers of the scheduler: the discovery filter, the
    JID-to-phone extraction, the token-to-phone lookup, the filler-message
    dictionary and the choice of a recipient other than the sender. */
module Discovery {
  import opened Wrappers
  import opened Types
  import opened Strings
  import opened Seqs
  import opened Draws

  const DiscoveryFailure := "Falha ao buscar instâncias da wuzapi"

  /** The filter of `getConnectedInstances`: connected, logged in, and a
      non-empty name whose lower-cased form starts with "matura". */
  predicate Eligible(inst: WuzapiInstance)
  {
    inst.connected && inst.loggedIn && inst.name != "" && IsPrefix("matura", ToLower(inst.name))
  }

  /** `getConnectedInstances` applied to the discovery call's outcome: a
      transport failure propagates, an unsuccessful reply is an error, and a
      successful one is filtered. */
  function GetConnectedInstances(reply: Result<WuzapiResponse>): (res: Result<seq<WuzapiInstance>>)
    ensures res.Ok? <==> reply.Ok? && reply.value.success
    ensures reply.Err? ==> res == Err(reply.message)
    ensures reply.Ok? && !reply.value.success ==> res == Err(DiscoveryFailure)
    ensures res.Ok? ==>
      && (forall i | i in res.value :: i in reply.value.data && Eligible(i))
      && (forall i | i in reply.value.data && Eligible(i) :: i in res.value)
      && IsSubsequence(res.value, reply.value.data)
      && (forall i :: multiset(res.value)[i] == if Eligible(i) then multiset(reply.value.data)[i] else 0)
  {
    match reply
    case Err(msg) => Err(msg)
    case Ok(r) => if r.success then Ok(Filter(r.data, Eligible)) else Err(DiscoveryFailure)
  }

  /** `jid.split(':')[0]`: the JID up to its first ':'. */
  function ExtractPhoneFromJid(jid: string): (phone: string)
    ensures IsPrefix(phone, jid)
    ensures ':' !in phone
    ensures |phone| == |jid| || jid[|phone|] == ':'
  {
    match IndexOf(jid, ':')
    case None => jid
    case Some(i) => jid[..i]
  }

  /** A JID built as phone, ':' and a device suffix gives back the phone. */
  lemma PhoneRoundTrip(phone: string, device: string)
    requires ':' !in phone
    ensures ExtractPhoneFromJid(phone + ":" + device) == phone
  {
    IndexOfAfter(phone, ':', device);
    assert phone + ":" + device == phone + [':'] + device;
    assert (phone + [':'] + device)[..|phone|] == phone;
  }

  /** `instances.find(inst => inst.token === token)`. */
  function FindByToken(instances: seq<WuzapiInstance>, token: string): (res: Option<nat>)
    ensures res.Some? ==> res.value < |instances| && instances[res.value].token == token
    ensures res.Some? ==> forall j | 0 <= j < res.value :: instances[j].token != token
    ensures res.None? ==> forall j | 0 <= j < |instances| :: instances[j].token != token
  {
    if |instances| == 0 then None
    else if instances[0].token == token then Some(0)
    else
      match FindByToken(instances[1..], token)
      case None => None
      case Some(i) => Some(i + 1)
  }

  const Unknown := "unknown"

  /** `getPhoneFromToken`, given the outcome of the discovery call it makes:
      the phone of the first live instance holding the token, else
      "unknown" (also when the discovery call fails). */
  function GetPhoneFromToken(live: Result<seq<WuzapiInstance>>, token: string): (phone: string)
    ensures live.Err? ==> phone == Unknown
    ensures live.Ok? && (forall i | i in live.value :: i.token != token) ==> phone == Unknown
    ensures live.Ok? && (exists i | i in live.value :: i.token == token) ==>
      exists j | 0 <= j < |live.value| :: live.value[j].token == token && phone == ExtractPhoneFromJid(live.value[j].jid)
        && forall j' | 0 <= j' < j :: live.value[j'].token != token
  {
    match live
    case Err(_) => Unknown
    case Ok(instances) =>
      match FindByToken(instances, token)
      case None => Unknown
      case Some(j) => ExtractPhoneFromJid(instances[j].jid)
  }

  /** `MESSAGE_DICTIONARY`: the filler lines the scheduler sends. */
  const MessageDictionary: seq<string> := [
    "Tô de boa por aqui 😌",
    "Esperando o próximo passo...",
    "Dá pra ir, confia 👍",
    "Mais um dia, mais uma maturação!",
    "Tá quase lá, calma aí! ⏳",
    "Preciso de um café ☕",
    "Eita, deu ruim aqui! 😳",
    "A fila andou, passou!",
    "Acordei inspirado hoje 😃",
    "Aguardando aquela ajudinha básica",
    "Só esperando o sinal verde! 🟢",
    "Hoje tá devagar, mas vai hein",
    "De olho em tudo, só observando 👀",
    "Podia estar em casa dormindo, confesso 😴",
    "Já acabou? Não, ainda não...",
    "Senti um cheirinho de vitória! 🏆",
    "Bora maturar mais um pouco!",
    "Rodando liso, sem stress",
    "Preciso de férias já! 🏖️",
    "Acho que vi um bug passando 🐛",
    "Fazendo hora extra aqui",
    "Tô pronto, chama!",
    "Só quero paz 😇",
    "Dia agitado hoje!",
    "Diz pra mim que tá tudo certo 👌",
    "Esperava menos trabalho hoje 😅",
    "E agora, José?",
    "Deu tilte, apaixonei 🫠",
    "Podia estar melhor, mas tá bom",
    "Só vai com música boa 🎶",
    "Tá frio aqui dentro 🥶",
    "Aquecendo os motores...",
    "Partiu descanso?",
    "Já acabou, Jéssica?",
    "Se der ruim, nem fui eu!",
    "Entrando no clima de maturação",
    "Segura aí que vai!",
    "Só na torcida pra dar tudo certo 🫡",
    "Olha eu aqui de novo!",
    "Acordando lentamente...",
    "Hoje o dia promete!",
    "Quase lá, juro!",
    "Olha a responsa!",
    "Tô esperando... e esperando...",
    "Paz e amor, só vibrações positivas ✌️",
    "Me chama que eu vou!",
    "Seguimos firmes 💪",
    "A vida é feita de ciclos, esse é só mais um",
    "Solta o som na caixa DJ! 🎵",
    "Vambora, que atrás vem gente!"
  ]

  /** `getRandomMessage`: a uniformly drawn dictionary line. */
  function GetRandomMessage(r: real): (line: string)
    requires IsDraw(r)
    ensures line in MessageDictionary
  {
    MessageDictionary[Index(r, |MessageDictionary|)]
  }

  /** The recipient loop of `processInstanceMessage`: each draw picks an
      index; the first pick whose id differs from the sender's is the
      recipient. `None` when every supplied draw picks the sender's id (the
      source would keep drawing). */
  function ChooseRecipient(live: seq<WuzapiInstance>, sender: WuzapiInstance, draws: seq<real>): (res: Option<WuzapiInstance>)
    requires |live| > 0 && forall d | d in draws :: IsDraw(d)
    ensures res.Some? ==> res.value in live && res.value.id != sender.id
    ensures res.Some? ==> exists t | 0 <= t < |draws| ::
      && res.value == live[Index(draws[t], |live|)]
      && forall t' | 0 <= t' < t :: live[Index(draws[t'], |live|)].id == sender.id
    ensures res.None? ==> forall t | 0 <= t < |draws| :: live[Index(draws[t], |live|)].id == sender.id
  {
    if |draws| == 0 then None
    else
      var target := live[Index(draws[0], |live|)];
      if target.id != sender.id then Some(target)
      else
        var rest := ChooseRecipient(live, sender, draws[1..]);
        assert forall t | 1 <= t < |draws| :: draws[t] == draws[1..][t - 1];
        rest
  }

  /** With distinct ids, the recipient is the one live instance picked, so
      with live set {A, B} a cycle of A always addresses B. */
  lemma TwoInstancesAlwaysPickTheOther(a: WuzapiInstance, b: WuzapiInstance, draws: seq<real>)
    requires a.id != b.id && forall d | d in draws :: IsDraw(d)
    ensures ChooseRecipient([a, b], a, draws).Some? ==> ChooseRecipient([a, b], a, draws).value == b
  {
  }

  /** The decision one timer fire takes in `processInstanceMessage`, before
      the message is composed. */
  datatype CycleDecision =
    | FetchFailed(message: string)
    | TooFewInstances(count: nat)
    | NoRecipient
    | Deliver(target: WuzapiInstance, fromPhone: string, toPhone: string, text: string)

  /** `processInstanceMessage` up to the call of `sendMessage`: re-fetch the
      live set, require two instances, pick a recipient other than the
      sender and a filler line. */
  function ProcessInstanceMessage(sender: WuzapiInstance, live: Result<seq<WuzapiInstance>>,
                                  pickDraws: seq<real>, lineDraw: real): (d: CycleDecision)
    requires forall r | r in pickDraws :: IsDraw(r)
    requires IsDraw(lineDraw)
    ensures live.Err? <==> d.FetchFailed?
    ensures live.Ok? && |live.value| < 2 <==> d.TooFewInstances?
    ensures d.Deliver? ==>
      && live.Ok? && |live.value| >= 2
      && d.target in live.value && d.target.id != sender.id
      && d.fromPhone == ExtractPhoneFromJid(sender.jid)
      && d.toPhone == ExtractPhoneFromJid(d.target.jid)
      && d.text in MessageDictionary
  {
    match live
    case Err(msg) => FetchFailed(msg)
    case Ok(instances) =>
      if |instances| < 2 then TooFewInstances(|instances|)
      else
        match ChooseRecipient(instances, sender, pickDraws)
        case None => NoRecipient
        case Some(target) =>
          Deliver(target, ExtractPhoneFromJid(sender.jid), ExtractPhoneFromJid(target.jid), GetRandomMessage(lineDraw))
  }
}
