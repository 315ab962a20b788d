/** The sensor screen: a fixed catalog of six display cards reconciled with
    whatever list the sensor endpoint returned, the colour of each status
    label, and the `sensores`/`loading` state updated by a fetch. */
module Sensores {
  import opened Wrappers

  /** The background image of a slot: each constructor stands for the
      animated image address the catalog gives that slot. */
  datatype Background = AirImage | SoilImage | TemperatureImage | HumidityImage | MotionImage | CameraImage

  /** One display card. `tipo` names the sensor, `valor` is the shown value,
      `estado` the status label and `imagenFondo` the background image. */
  datatype Card = Card(tipo: string, valor: string, estado: string, imagenFondo: Background)

  /** A JSON number from the endpoint together with its JavaScript rendering
      `${x}`, which the card text is built from. */
  datatype Number = Number(value: real, text: string)

  datatype AirQuality = AirQuality(value: Number, riskLevel: Option<string>)
  datatype SoilMoisture = SoilMoisture(percentage: Number)
  datatype AmbientTemperature = AmbientTemperature(value: Number)
  datatype AmbientHumidity = AmbientHumidity(value: Number)
  datatype Motion = Motion(detected: bool)

  /** The `sensors` envelope of a MongoDB document: each sub-record may be missing. */
  datatype Envelope = Envelope(
    airQuality: Option<AirQuality>,
    soilMoisture: Option<SoilMoisture>,
    ambientTemperature: Option<AmbientTemperature>,
    ambientHumidity: Option<AmbientHumidity>,
    motion: Option<Motion>)

  /** One element of the list the endpoint returned. A current document carries
      a `sensors` envelope; an older, list-shaped record carries its own
      `tipo`, `valor` and `estado` keys, any of which may be missing. */
  datatype Reading = Reading(
    sensors: Option<Envelope>,
    tipo: Option<string>,
    valor: Option<string>,
    estado: Option<string>)

  /** The record found for a slot (`encontrado`): the keys it will override. */
  datatype Found = Found(tipo: Option<string>, valor: Option<string>, estado: Option<string>)

  const Placeholder := "-"
  const Unknown := "Desconocido"

  const MQ135 := "MQ-135"
  const YL69 := "YL-69"
  const DhtTemperature := "DHT11 Temperatura"
  const DhtHumidity := "DHT11 Humedad"
  const Pir := "PIR"
  const Cam := "CAM"

  /** The fixed catalog of six slots, in display order, all at their defaults. */
  const FixedSensores: seq<Card> := [
    Card(MQ135, Placeholder, Unknown, AirImage),
    Card(YL69, Placeholder, Unknown, SoilImage),
    Card(DhtTemperature, Placeholder, Unknown, TemperatureImage),
    Card(DhtHumidity, Placeholder, Unknown, HumidityImage),
    Card(Pir, Placeholder, Unknown, MotionImage),
    Card(Cam, Placeholder, Unknown, CameraImage)
  ]

  // ---------------------------------------------------------------------
  // Case-insensitive comparison of `tipo` (ASCII letters only)
  // ---------------------------------------------------------------------

  function LowerChar(c: char): char {
    if 'A' <= c <= 'Z' then (c as int + 32) as char else c
  }

  /** `toLowerCase`, restricted to ASCII letters. */
  function Lower(s: string): (r: string)
    ensures |r| == |s|
    ensures forall i :: 0 <= i < |s| ==> r[i] == LowerChar(s[i])
  {
    if s == [] then [] else [LowerChar(s[0])] + Lower(s[1..])
  }

  /** The predicate given to `find` in the legacy path: the element has a
      non-empty `tipo` equal to the slot's up to case. */
  predicate TipoMatches(s: Reading, tipo: string) {
    s.tipo.Some? && s.tipo.value != "" && Lower(s.tipo.value) == Lower(tipo)
  }

  /** `Array.prototype.find`: an element that matches, if any. */
  function Find(sensores: seq<Reading>, tipo: string): (r: Option<Reading>)
    ensures r.Some? ==> r.value in sensores && TipoMatches(r.value, tipo)
    ensures r.None? ==> forall j :: 0 <= j < |sensores| ==> !TipoMatches(sensores[j], tipo)
  {
    if sensores == [] then None
    else if TipoMatches(sensores[0], tipo) then Some(sensores[0])
    else Find(sensores[1..], tipo)
  }

  /** The element `find` returns is the first that matches. */
  lemma {:induction false} FindReturnsFirst(sensores: seq<Reading>, tipo: string, k: nat)
    requires k < |sensores| && TipoMatches(sensores[k], tipo)
    requires forall j :: 0 <= j < k ==> !TipoMatches(sensores[j], tipo)
    ensures Find(sensores, tipo) == Some(sensores[k])
  {
    if k > 0 {
      assert !TipoMatches(sensores[0], tipo);
      forall j | 0 <= j < k - 1 ensures !TipoMatches(sensores[1..][j], tipo) {
        assert sensores[1..][j] == sensores[j + 1];
      }
      FindReturnsFirst(sensores[1..], tipo, k - 1);
    }
  }

  // ---------------------------------------------------------------------
  // Status labels
  // ---------------------------------------------------------------------

  /** The three-band classification with strict `>` comparisons: above `high`
      is Alto, above `moderate` is Moderado, anything else is Bajo. */
  function Band(x: real, high: real, moderate: real): (r: string)
    requires moderate <= high
    ensures r == "Alto" <==> x > high
    ensures r == "Moderado" <==> moderate < x <= high
    ensures r == "Bajo" <==> x <= moderate
  {
    if x > high then "Alto" else if x > moderate then "Moderado" else "Bajo"
  }

  function SoilStatus(percentage: real): string { Band(percentage, 60.0, 30.0) }
  function TemperatureStatus(value: real): string { Band(value, 35.0, 25.0) }
  function HumidityStatus(value: real): string { Band(value, 70.0, 40.0) }

  /** The colour of a status label; every label outside the four known ones
      gets the neutral grey. */
  function GetEstadoColor(estado: string): (color: string)
    ensures color == "#CCC" <==> estado !in {"Bajo", "Moderado", "Alto", "Crítico"}
    ensures estado == "Bajo" <==> color == "#A3D9A5"
    ensures estado == "Moderado" <==> color == "#FCE38A"
    ensures estado == "Alto" <==> color == "#F38181"
    ensures estado == "Crítico" <==> color == "#D72323"
  {
    match estado
    case "Bajo" => "#A3D9A5"
    case "Moderado" => "#FCE38A"
    case "Alto" => "#F38181"
    case "Crítico" => "#D72323"
    case _ => "#CCC"
  }

  // ---------------------------------------------------------------------
  // Reconciliation
  // ---------------------------------------------------------------------

  /** `sensores[0].sensors` when the list is non-empty and it is present. */
  function MongoSensor(sensores: seq<Reading>): (m: Option<Envelope>)
    ensures m.Some? <==> |sensores| > 0 && sensores[0].sensors.Some?
    ensures m.Some? ==> m == sensores[0].sensors
  {
    if |sensores| > 0 && sensores[0].sensors.Some? then sensores[0].sensors else None
  }

  // The value and the label of each slot on the envelope path.

  function AirQualityValor(aq: Option<AirQuality>): string {
    if aq.Some? then aq.value.value.text + " ppm" else Placeholder
  }

  function AirQualityEstado(aq: Option<AirQuality>): string {
    if aq.Some? && aq.value.riskLevel.Some? && aq.value.riskLevel.value != ""
    then aq.value.riskLevel.value else Unknown
  }

  function SoilValor(sm: Option<SoilMoisture>): string {
    if sm.Some? then sm.value.percentage.text + "%" else Placeholder
  }

  function SoilEstado(sm: Option<SoilMoisture>): string {
    if sm.Some? then SoilStatus(sm.value.percentage.value) else Unknown
  }

  function TemperatureValor(t: Option<AmbientTemperature>): string {
    if t.Some? then t.value.value.text + "°C" else Placeholder
  }

  function TemperatureEstado(t: Option<AmbientTemperature>): string {
    if t.Some? then TemperatureStatus(t.value.value.value) else Unknown
  }

  function HumidityValor(h: Option<AmbientHumidity>): string {
    if h.Some? then h.value.value.text + "%" else Placeholder
  }

  function HumidityEstado(h: Option<AmbientHumidity>): string {
    if h.Some? then HumidityStatus(h.value.value.value) else Unknown
  }

  function MotionValor(mo: Option<Motion>): string {
    if mo.Some? then (if mo.value.detected then "Detectado" else "No") else Placeholder
  }

  function MotionEstado(mo: Option<Motion>): string {
    if mo.Some? then (if mo.value.detected then "Alto" else "Bajo") else Unknown
  }

  /** The switch over `fixed.tipo` on the MongoDB path. */
  function MongoFound(tipo: string, m: Envelope): (r: Option<Found>)
    ensures r.Some? <==> tipo in {MQ135, YL69, DhtTemperature, DhtHumidity, Pir, Cam}
    ensures r.Some? ==> r.value.tipo == Some(tipo) && r.value.valor.Some? && r.value.estado.Some?
  {
    if tipo == MQ135 then
      Some(Found(Some(MQ135), Some(AirQualityValor(m.airQuality)), Some(AirQualityEstado(m.airQuality))))
    else if tipo == YL69 then
      Some(Found(Some(YL69), Some(SoilValor(m.soilMoisture)), Some(SoilEstado(m.soilMoisture))))
    else if tipo == DhtTemperature then
      Some(Found(Some(DhtTemperature), Some(TemperatureValor(m.ambientTemperature)),
                 Some(TemperatureEstado(m.ambientTemperature))))
    else if tipo == DhtHumidity then
      Some(Found(Some(DhtHumidity), Some(HumidityValor(m.ambientHumidity)), Some(HumidityEstado(m.ambientHumidity))))
    else if tipo == Pir then
      Some(Found(Some(Pir), Some(MotionValor(m.motion)), Some(MotionEstado(m.motion))))
    else if tipo == Cam then
      Some(Found(Some(Cam), Some(Placeholder), Some(Unknown)))
    else
      None
  }

  /** The record found for one slot: from the envelope when there is one,
      otherwise the first legacy element whose `tipo` matches. */
  function Encontrado(fixed: Card, sensores: seq<Reading>): Option<Found> {
    match MongoSensor(sensores)
    case Some(m) => MongoFound(fixed.tipo, m)
    case None =>
      match Find(sensores, fixed.tipo)
      case Some(s) => Some(Found(s.tipo, s.valor, s.estado))
      case None => None
  }

  /** `{...fixed, ...encontrado, imagenFondo: fixed.imagenFondo}`. */
  function Merge(fixed: Card, e: Found): Card {
    Card(e.tipo.GetOr(fixed.tipo), e.valor.GetOr(fixed.valor), e.estado.GetOr(fixed.estado), fixed.imagenFondo)
  }

  /** The card shown for one catalog slot. It keeps the slot's background
      image whatever the data. */
  function Complete(fixed: Card, sensores: seq<Reading>): (c: Card)
    ensures c.imagenFondo == fixed.imagenFondo
  {
    match Encontrado(fixed, sensores)
    case Some(e) => Merge(fixed, e)
    case None => fixed
  }

  /** `sensoresCompletos`: one card per catalog slot, in catalog order. */
  function SensoresCompletos(sensores: seq<Reading>): (r: seq<Card>)
    ensures |r| == |FixedSensores| == 6
    ensures forall i :: 0 <= i < 6 ==> r[i].imagenFondo == FixedSensores[i].imagenFondo
  {
    seq(|FixedSensores|, i requires 0 <= i < |FixedSensores| => Complete(FixedSensores[i], sensores))
  }

  // ---------------------------------------------------------------------
  // Properties of the reconciliation
  // ---------------------------------------------------------------------

  /** Whether the envelope holds the sub-record that feeds catalog slot `i`
      (the camera slot has none). */
  predicate SubRecordPresent(i: nat, m: Envelope) {
    match i
    case 0 => m.airQuality.Some?
    case 1 => m.soilMoisture.Some?
    case 2 => m.ambientTemperature.Some?
    case 3 => m.ambientHumidity.Some?
    case 4 => m.motion.Some?
    case _ => false
  }

  /** Two envelopes agree on the sub-record that feeds slot `i`. */
  predicate SameSubRecord(i: nat, m1: Envelope, m2: Envelope) {
    match i
    case 0 => m1.airQuality == m2.airQuality
    case 1 => m1.soilMoisture == m2.soilMoisture
    case 2 => m1.ambientTemperature == m2.ambientTemperature
    case 3 => m1.ambientHumidity == m2.ambientHumidity
    case 4 => m1.motion == m2.motion
    case _ => true
  }

  /** Whatever the data, every card names its slot's sensor up to case: the
      envelope path writes the catalog `tipo`, the legacy path one that
      matches it case-insensitively. */
  lemma CardsKeepSlotIdentity(sensores: seq<Reading>, i: nat)
    requires i < 6
    ensures Lower(SensoresCompletos(sensores)[i].tipo) == Lower(FixedSensores[i].tipo)
  {
    var fixed := FixedSensores[i];
    assert SensoresCompletos(sensores)[i] == Complete(fixed, sensores);
    if MongoSensor(sensores).None? {
      var f := Find(sensores, fixed.tipo);
      if f.Some? {
        assert TipoMatches(f.value, fixed.tipo);
      }
    }
  }

  /** With no data at all every slot shows its catalog default. */
  lemma EmptyListShowsDefaults()
    ensures SensoresCompletos([]) == FixedSensores
  {
    var r := SensoresCompletos([]);
    forall i | 0 <= i < 6 ensures r[i] == FixedSensores[i] {
      assert MongoSensor([]).None? && Find([], FixedSensores[i].tipo).None?;
    }
  }

  /** On the envelope path every card carries exactly its catalog `tipo`. */
  lemma MongoKeepsCatalogTipo(sensores: seq<Reading>, i: nat)
    requires MongoSensor(sensores).Some? && i < 6
    ensures SensoresCompletos(sensores)[i].tipo == FixedSensores[i].tipo
  {
    assert FixedSensores[i].tipo in {MQ135, YL69, DhtTemperature, DhtHumidity, Pir, Cam};
  }

  /** Only `sensores[0].sensors` feeds the envelope path: the rest of the list
      is ignored. */
  lemma OnlyFirstEnvelopeCounts(s1: seq<Reading>, s2: seq<Reading>)
    requires |s1| > 0 && |s2| > 0 && s1[0].sensors.Some? && s1[0].sensors == s2[0].sensors
    ensures SensoresCompletos(s1) == SensoresCompletos(s2)
  {
    var r1, r2 := SensoresCompletos(s1), SensoresCompletos(s2);
    forall i | 0 <= i < 6 ensures r1[i] == r2[i] {
      assert MongoSensor(s1) == MongoSensor(s2);
    }
  }

  /** On the envelope path each of the six cards is its catalog card with the
      value and the label computed from its own sub-record alone. */
  lemma MongoCards(sensores: seq<Reading>)
    requires MongoSensor(sensores).Some?
    ensures var r, m := SensoresCompletos(sensores), MongoSensor(sensores).value;
      r[0] == Card(MQ135, AirQualityValor(m.airQuality), AirQualityEstado(m.airQuality), FixedSensores[0].imagenFondo) &&
      r[1] == Card(YL69, SoilValor(m.soilMoisture), SoilEstado(m.soilMoisture), FixedSensores[1].imagenFondo) &&
      r[2] == Card(DhtTemperature, TemperatureValor(m.ambientTemperature), TemperatureEstado(m.ambientTemperature),
                   FixedSensores[2].imagenFondo) &&
      r[3] == Card(DhtHumidity, HumidityValor(m.ambientHumidity), HumidityEstado(m.ambientHumidity),
                   FixedSensores[3].imagenFondo) &&
      r[4] == Card(Pir, MotionValor(m.motion), MotionEstado(m.motion), FixedSensores[4].imagenFondo) &&
      r[5] == FixedSensores[5]
  {
    var r, m := SensoresCompletos(sensores), MongoSensor(sensores).value;
    assert r[0] == Merge(FixedSensores[0], MongoFound(MQ135, m).value);
    assert r[1] == Merge(FixedSensores[1], MongoFound(YL69, m).value);
    assert r[2] == Merge(FixedSensores[2], MongoFound(DhtTemperature, m).value);
    assert r[3] == Merge(FixedSensores[3], MongoFound(DhtHumidity, m).value);
    assert r[4] == Merge(FixedSensores[4], MongoFound(Pir, m).value);
    assert r[5] == Merge(FixedSensores[5], MongoFound(Cam, m).value);
  }

  /** A missing sub-record leaves its own slot at the catalog default. */
  lemma MissingSubRecordShowsDefault(sensores: seq<Reading>, i: nat)
    requires MongoSensor(sensores).Some? && i < 6
    requires !SubRecordPresent(i, MongoSensor(sensores).value)
    ensures SensoresCompletos(sensores)[i] == FixedSensores[i]
  {
    MongoCards(sensores);
  }

  /** Slots are independent: a slot's card depends only on its own
      sub-record, so changing any other sub-record leaves it unchanged. */
  lemma SlotIndependence(s1: seq<Reading>, s2: seq<Reading>, i: nat)
    requires MongoSensor(s1).Some? && MongoSensor(s2).Some? && i < 6
    requires SameSubRecord(i, MongoSensor(s1).value, MongoSensor(s2).value)
    ensures SensoresCompletos(s1)[i] == SensoresCompletos(s2)[i]
  {
    MongoCards(s1);
    MongoCards(s2);
  }

  /** Air quality shows `"<value> ppm"` and passes a non-empty `riskLevel`
      through verbatim; without one the label is `Desconocido` although a
      value is shown. */
  lemma AirQualityCard(sensores: seq<Reading>, aq: AirQuality)
    requires MongoSensor(sensores).Some? && MongoSensor(sensores).value.airQuality == Some(aq)
    ensures SensoresCompletos(sensores)[0].valor == aq.value.text + " ppm"
    ensures aq.riskLevel.Some? && aq.riskLevel.value != "" ==>
      SensoresCompletos(sensores)[0].estado == aq.riskLevel.value
    ensures aq.riskLevel.None? || aq.riskLevel.value == "" ==>
      SensoresCompletos(sensores)[0].estado == Unknown
  {
  }

  /** Soil moisture bands: above 60 is Alto, above 30 is Moderado, else Bajo. */
  lemma SoilMoistureCard(sensores: seq<Reading>, p: Number)
    requires MongoSensor(sensores).Some? && MongoSensor(sensores).value.soilMoisture == Some(SoilMoisture(p))
    ensures SensoresCompletos(sensores)[1].valor == p.text + "%"
    ensures SensoresCompletos(sensores)[1].estado == "Alto" <==> p.value > 60.0
    ensures SensoresCompletos(sensores)[1].estado == "Moderado" <==> 30.0 < p.value <= 60.0
    ensures SensoresCompletos(sensores)[1].estado == "Bajo" <==> p.value <= 30.0
  {
  }

  /** Temperature bands: above 35 is Alto, above 25 is Moderado, else Bajo. */
  lemma TemperatureCard(sensores: seq<Reading>, t: Number)
    requires MongoSensor(sensores).Some? && MongoSensor(sensores).value.ambientTemperature == Some(AmbientTemperature(t))
    ensures SensoresCompletos(sensores)[2].valor == t.text + "°C"
    ensures SensoresCompletos(sensores)[2].estado == "Alto" <==> t.value > 35.0
    ensures SensoresCompletos(sensores)[2].estado == "Moderado" <==> 25.0 < t.value <= 35.0
    ensures SensoresCompletos(sensores)[2].estado == "Bajo" <==> t.value <= 25.0
  {
  }

  /** Humidity bands: above 70 is Alto, above 40 is Moderado, else Bajo. */
  lemma HumidityCard(sensores: seq<Reading>, h: Number)
    requires MongoSensor(sensores).Some? && MongoSensor(sensores).value.ambientHumidity == Some(AmbientHumidity(h))
    ensures SensoresCompletos(sensores)[3].valor == h.text + "%"
    ensures SensoresCompletos(sensores)[3].estado == "Alto" <==> h.value > 70.0
    ensures SensoresCompletos(sensores)[3].estado == "Moderado" <==> 40.0 < h.value <= 70.0
    ensures SensoresCompletos(sensores)[3].estado == "Bajo" <==> h.value <= 40.0
  {
  }

  /** A value exactly on a threshold falls into the lower band. */
  lemma ThresholdsAreStrict()
    ensures SoilStatus(60.0) == "Moderado" && SoilStatus(30.0) == "Bajo"
    ensures TemperatureStatus(35.0) == "Moderado" && TemperatureStatus(25.0) == "Bajo"
    ensures HumidityStatus(70.0) == "Moderado" && HumidityStatus(40.0) == "Bajo"
  {
  }

  /** Motion: detected gives (Detectado, Alto), not detected gives (No, Bajo). */
  lemma MotionCard(sensores: seq<Reading>, detected: bool)
    requires MongoSensor(sensores).Some? && MongoSensor(sensores).value.motion == Some(Motion(detected))
    ensures detected ==> SensoresCompletos(sensores)[4].valor == "Detectado" && SensoresCompletos(sensores)[4].estado == "Alto"
    ensures !detected ==> SensoresCompletos(sensores)[4].valor == "No" && SensoresCompletos(sensores)[4].estado == "Bajo"
  {
  }

  /** The camera slot has no sub-record: on the envelope path it always shows
      its catalog default. */
  lemma CameraCard(sensores: seq<Reading>)
    requires MongoSensor(sensores).Some?
    ensures SensoresCompletos(sensores)[5] == FixedSensores[5]
  {
  }

  /** On the envelope path, a card of slots 1 to 4 is grey exactly when its
      sub-record is missing: every derived label has a colour of its own. */
  lemma DerivedLabelsAreColoured(sensores: seq<Reading>, i: nat)
    requires MongoSensor(sensores).Some? && 1 <= i <= 4
    ensures GetEstadoColor(SensoresCompletos(sensores)[i].estado) == "#CCC" <==>
      !SubRecordPresent(i, MongoSensor(sensores).value)
  {
    var m := MongoSensor(sensores).value;
    if !SubRecordPresent(i, m) {
      MissingSubRecordShowsDefault(sensores, i);
    } else if i == 1 {
      SoilMoistureCard(sensores, m.soilMoisture.value.percentage);
    } else if i == 2 {
      TemperatureCard(sensores, m.ambientTemperature.value.value);
    } else if i == 3 {
      HumidityCard(sensores, m.ambientHumidity.value.value);
    } else {
      MotionCard(sensores, m.motion.value.detected);
    }
  }

  /** Without an envelope, a slot takes its keys from the first list element
      whose `tipo` matches up to case (its `tipo` included, its background
      image excluded), and keeps its default when none matches. */
  lemma LegacyFirstMatch(sensores: seq<Reading>, i: nat, k: nat)
    requires MongoSensor(sensores).None? && i < 6 && k < |sensores|
    requires TipoMatches(sensores[k], FixedSensores[i].tipo)
    requires forall j :: 0 <= j < k ==> !TipoMatches(sensores[j], FixedSensores[i].tipo)
    ensures SensoresCompletos(sensores)[i] ==
      Card(sensores[k].tipo.value, sensores[k].valor.GetOr(Placeholder),
           sensores[k].estado.GetOr(Unknown), FixedSensores[i].imagenFondo)
  {
    FindReturnsFirst(sensores, FixedSensores[i].tipo, k);
  }

  /** Without an envelope and without a matching element, a slot keeps its
      catalog default. */
  lemma LegacyNoMatch(sensores: seq<Reading>, i: nat)
    requires MongoSensor(sensores).None? && i < 6
    requires forall j :: 0 <= j < |sensores| ==> !TipoMatches(sensores[j], FixedSensores[i].tipo)
    ensures SensoresCompletos(sensores)[i] == FixedSensores[i]
  {
  }

  // ---------------------------------------------------------------------
  // The screen's state
  // ---------------------------------------------------------------------

  /** The card area of the screen: a spinner, the no-data message, or the
      grid of cards. */
  datatype Display = Spinner | NoDataMessage | CardGrid(cards: seq<Card>)

  /** The render switch: the spinner while loading; otherwise the no-data
      message when the completed list is empty, and the cards when it is not. */
  function Render(loading: bool, sensores: seq<Reading>): (d: Display)
    ensures d.Spinner? <==> loading
    ensures d.CardGrid? ==> d.cards == SensoresCompletos(sensores)
    ensures d.NoDataMessage? ==> |SensoresCompletos(sensores)| == 0
  {
    if loading then Spinner
    else if |SensoresCompletos(sensores)| == 0 then NoDataMessage
    else CardGrid(SensoresCompletos(sensores))
  }

  /** The no-data message can never appear: the completed list always has
      six cards, so outside loading the screen shows exactly those six. */
  lemma NoDataMessageUnreachable(loading: bool, sensores: seq<Reading>)
    ensures Render(loading, sensores) != NoDataMessage
    ensures !loading ==> Render(loading, sensores) == CardGrid(SensoresCompletos(sensores))
    ensures !loading ==> |Render(loading, sensores).cards| == 6
  {
  }

  /** The state of the sensor screen: the last list fetched and the busy flag. */
  class SensoresScreen {
    var sensores: seq<Reading>
    var loading: bool

    constructor ()
      ensures sensores == [] && !loading
    {
      sensores := [];
      loading := false;
    }

    /** What the card area shows for the current state. */
    function CardArea(): (d: Display)
      reads this
      ensures d.Spinner? <==> loading
      ensures !loading ==> d == CardGrid(SensoresCompletos(sensores)) && |d.cards| == 6
    {
      Render(loading, sensores)
    }

    /** The start of `fetchSensores`: the screen becomes busy. */
    method BeginFetch()
      modifies this
      ensures loading && sensores == old(sensores)
    {
      loading := true;
    }

    /** The end of `fetchSensores`: the list is replaced wholesale on success
        and kept on failure; in both cases the screen is no longer busy. */
    method FinishFetch(response: Outcome<seq<Reading>>)
      modifies this
      ensures !loading
      ensures response.Success? ==> sensores == response.data
      ensures response.Failure? ==> sensores == old(sensores)
    {
      if response.Success? {
        sensores := response.data;
      }
      loading := false;
    }

    /** A whole fetch, from request to response. */
    method FetchSensores(response: Outcome<seq<Reading>>)
      modifies this
      ensures !loading
      ensures sensores == if response.Success? then response.data else old(sensores)
    {
      BeginFetch();
      FinishFetch(response);
    }

    /** The refresh button, disabled while a fetch is under way: a press
        starts a fetch exactly when the screen is idle. */
    method PressRefresh() returns (started: bool)
      modifies this
      ensures started == !old(loading)
      ensures loading && sensores == old(sensores)
    {
      started := !loading;
      if started {
        BeginFetch();
      }
    }
  }
}
