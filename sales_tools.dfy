/**
  The six tools the model may call (scripts/tools.py), with the Google Sheets and
  Calendar services replaced by data and oracles: sheet metadata and row values come in
  as arguments, a failing API call comes in as its error text, and the calendar is an
  object whose events the tools create, move and delete. Every tool answers with a text;
  an API error becomes an "Error al …" text instead of an exception.
*/
module SalesTools {
  import opened Wrappers
  import opened Text
  import opened CivilCalendar
  import opened Agent

  /** How an f-string writes a value that may be None. */
  function OrNone(t: Option<string>): string {
    if t.Some? then t.value else "None"
  }

  // ---------------------------------------------------------------------------
  // Choosing a sheet by its title
  // ---------------------------------------------------------------------------

  /** A sheet's metadata: `properties.title`, when present. */
  datatype SheetMeta = SheetMeta(title: Option<string>)

  /** `s.get("properties", {}).get("title", "")`. */
  function TitleOf(s: SheetMeta): string {
    if s.title.Some? then s.title.value else ""
  }

  predicate TitleHas(s: SheetMeta, word: string) {
    Contains(Lower(TitleOf(s)), word)
  }

  /** The first sheet whose lower-cased title contains `word`. */
  function FirstWith(sheets: seq<SheetMeta>, word: string): (r: Option<nat>)
    ensures r.Some? ==> r.value < |sheets| && TitleHas(sheets[r.value], word)
    ensures forall i :: 0 <= i < (if r.Some? then r.value else |sheets|) ==> !TitleHas(sheets[i], word)
    decreases |sheets|
  {
    if sheets == [] then None
    else if TitleHas(sheets[0], word) then Some(0)
    else
      var r := FirstWith(sheets[1..], word);
      if r.Some? then Some(r.value + 1) else None
  }

  /** Any index meeting FirstWith's description is the one FirstWith finds. */
  lemma {:induction false} FirstWithIs(sheets: seq<SheetMeta>, word: string, r: Option<nat>)
    requires r.Some? ==> r.value < |sheets| && TitleHas(sheets[r.value], word)
    requires forall i :: 0 <= i < (if r.Some? then r.value else |sheets|) ==> !TitleHas(sheets[i], word)
    ensures r == FirstWith(sheets, word)
    decreases |sheets|
  {
    if sheets != [] && !TitleHas(sheets[0], word) {
      var next: Option<nat> := if r.Some? then Some(r.value - 1) else None;
      assert forall i :: 0 <= i < |sheets| - 1 ==> sheets[1..][i] == sheets[i + 1];
      FirstWithIs(sheets[1..], word, next);
    }
  }

  /** The loop with `break` both tools use to pick a sheet. */
  method ChooseSheet(sheets: seq<SheetMeta>, word: string) returns (found: Option<nat>)
    ensures found == FirstWith(sheets, word)
  {
    found := None;
    var i := 0;
    while i < |sheets|
      invariant 0 <= i <= |sheets|
      invariant forall j :: 0 <= j < i ==> !TitleHas(sheets[j], word)
    {
      if TitleHas(sheets[i], word) {
        found := Some(i);
        break;
      }
      i := i + 1;
    }
    FirstWithIs(sheets, word, found);
  }

  const ListingWord := "propiedades"

  /** The listing sheet: the first title with "propiedades", else the name "propiedades". */
  function ListingSheet(sheets: seq<SheetMeta>): (name: string)
    ensures FirstWith(sheets, ListingWord).None? ==> name == "propiedades"
    ensures FirstWith(sheets, ListingWord).Some? ==>
      name == TitleOf(sheets[FirstWith(sheets, ListingWord).value]) && Contains(Lower(name), "propiedades")
  {
    var f := FirstWith(sheets, ListingWord);
    if f.Some? then TitleOf(sheets[f.value]) else ListingWord
  }

  const NoLeadsTab := "Error: No se encontró una pestaña de 'Leads' en el Google Sheet."

  /**
    The leads sheet: the first title with "lead"; else the second sheet's title, which
    may be missing; with one sheet or none, the error text.
  */
  function LeadsSheet(sheets: seq<SheetMeta>): (r: Result<Option<string>, string>)
    ensures r.Err? <==> FirstWith(sheets, "lead").None? && |sheets| <= 1
    ensures r.Err? ==> r.error == NoLeadsTab
    ensures FirstWith(sheets, "lead").Some? ==>
      r == Ok(Some(TitleOf(sheets[FirstWith(sheets, "lead").value]))) && Contains(Lower(r.value.value), "lead")
    ensures FirstWith(sheets, "lead").None? && |sheets| > 1 ==> r == Ok(sheets[1].title)
  {
    var f := FirstWith(sheets, "lead");
    if f.Some? then Ok(Some(TitleOf(sheets[f.value])))
    else if |sheets| > 1 then Ok(sheets[1].title)
    else Err(NoLeadsTab)
  }

  // ---------------------------------------------------------------------------
  // consultar_propiedades
  // ---------------------------------------------------------------------------

  /** `row += [''] * (n - len(row))`: pad to at least n cells with empty strings. */
  function Padded(row: seq<string>, n: nat): (r: seq<string>)
    ensures |r| == if |row| < n then n else |row|
    ensures r[..|row|] == row
    ensures forall i :: |row| <= i < |r| ==> r[i] == ""
  {
    if |row| < n then row + seq(n - |row|, _ => "") else row
  }

  /** `row[i] if len(row) > i else default`. */
  function Field(row: seq<string>, i: nat, default: string): string {
    if i < |row| then row[i] else default
  }

  datatype Property = Property(id: string, nombre: string, zona: string, precio: string,
                               desc: string, rentabilidad: string, imagenes: string)

  /** The seven columns A..G of a row padded to the header's width, with the defaults. */
  function RowProperty(header: seq<string>, row: seq<string>): Property {
    var p := Padded(row, |header|);
    Property(Field(p, 0, "0"), Field(p, 1, "N/A"), Field(p, 2, "N/A"), Field(p, 3, "0"),
             Field(p, 4, ""), Field(p, 5, ""), Field(p, 6, ""))
  }

  /**
    A column the row has keeps its cell; a column only the header has reads ""; a column
    beyond both takes the default.
  */
  lemma {:induction false} FieldsWithDefaults(header: seq<string>, row: seq<string>, i: nat, default: string)
    ensures var p := Padded(row, |header|);
      && (i < |row| ==> Field(p, i, default) == row[i])
      && (|row| <= i < |header| ==> Field(p, i, default) == "")
      && (i >= |row| && i >= |header| ==> Field(p, i, default) == default)
  {
    var p := Padded(row, |header|);
    if i < |row| {
      assert p[..|row|][i] == p[i];
    }
  }

  /** `int(''.join(c for c in price if c.isdigit()))`, or 0 when it has no digit. */
  function CleanPrice(price: string): (n: nat)
    ensures DigitsOf(price) == [] ==> n == 0
  {
    var digits := DigitsOf(price);
    if digits == [] then 0 else DigitsValue(digits)
  }

  /** The price a listing writes out reads back as itself once cleaned. */
  lemma {:induction false} CleanPriceOfDecimal(n: nat)
    ensures CleanPrice(Decimal(n)) == n
  {
    DecimalRoundTrip(n);
  }

  /** `not zona or zona.lower() in zona_prop.lower()`. */
  predicate ZoneMatches(zona: Option<string>, zonaProp: string) {
    zona.None? || zona.value == "" || Contains(Lower(zonaProp), Lower(zona.value))
  }

  /** An absent or empty zone matches every row; otherwise a case-folded occurrence is needed. */
  lemma {:induction false} ZoneMatchesIff(zona: Option<string>, zonaProp: string)
    ensures ZoneMatches(zona, zonaProp) <==>
      zona.None? || zona.value == "" || exists i :: OccursAt(Lower(zonaProp), Lower(zona.value), i)
  {
    if zona.Some? {
      ContainsIff(Lower(zonaProp), Lower(zona.value));
    }
  }

  /** One listing entry. */
  function Entry(p: Property): string {
    "- **[ID: " + p.id + "] " + p.nombre + "** en " + p.zona + " (" + p.precio + ")\n  Detalle: "
    + p.desc + "\n  Rentabilidad: " + p.rentabilidad + "\n  Imágenes: " + p.imagenes + "\n"
  }

  /** Whether a data row passes the zone filter. */
  predicate RowMatches(zona: Option<string>, header: seq<string>, row: seq<string>) {
    ZoneMatches(zona, RowProperty(header, row).zona)
  }

  /** The entry a data row is listed as. */
  function Listed(header: seq<string>, row: seq<string>): string {
    Entry(RowProperty(header, row))
  }

  /** The entries for the rows whose zone matches, in sheet order. */
  function Found(zona: Option<string>, header: seq<string>, rows: seq<seq<string>>): (r: seq<string>)
    ensures |r| <= |rows|
    decreases |rows|
  {
    if rows == [] then []
    else
      var last := rows[|rows| - 1];
      Found(zona, header, rows[..|rows| - 1]) + (if RowMatches(zona, header, last) then [Listed(header, last)] else [])
  }

  /** Found over one more row. */
  lemma {:induction false} FoundSnoc(zona: Option<string>, header: seq<string>, rows: seq<seq<string>>, i: nat)
    requires i < |rows|
    ensures Found(zona, header, rows[..i + 1]) ==
      Found(zona, header, rows[..i]) + (if RowMatches(zona, header, rows[i]) then [Listed(header, rows[i])] else [])
  {
    assert rows[..i + 1][..i] == rows[..i];
  }

  const NoData := "No se encontraron propiedades en la base de datos."
  const ListingPreamble := "Aquí tienes las opciones en la base de datos para esa zona:\n"

  function NoMatch(zona: Option<string>): string {
    "Actualmente no cuento con propiedades en " + OrNone(zona) + "."
  }

  /** The listing answer opens with its preamble and then lists every entry. */
  lemma {:induction false} ListingListsEntries(found: seq<string>)
    ensures var r := ListingPreamble + Join(found, "\n");
      && r[..|ListingPreamble|] == ListingPreamble
      && forall k :: 0 <= k < |found| ==> Contains(r, found[k])
  {
    var r := ListingPreamble + Join(found, "\n");
    assert r == ListingPreamble + Join(found, "\n") + [];
    forall k | 0 <= k < |found|
      ensures Contains(r, found[k])
    {
      JoinContains(found, "\n", k);
      ContainsWithin(ListingPreamble, Join(found, "\n"), [], found[k]);
    }
  }

  /**
    The answer for the values read from the sheet; row 0 is the header. An empty read
    and a read with no matching row each have their own answer; otherwise the answer is
    the preamble followed by every matching entry.
  */
  function ListingReply(zona: Option<string>, values: seq<seq<string>>): (r: string)
    ensures values == [] ==> r == NoData
    ensures values != [] && Found(zona, values[0], values[1..]) == [] ==> r == NoMatch(zona)
    ensures values != [] && Found(zona, values[0], values[1..]) != [] ==>
      && |r| >= |ListingPreamble| && r[..|ListingPreamble|] == ListingPreamble
      && forall k :: 0 <= k < |Found(zona, values[0], values[1..])| ==> Contains(r, Found(zona, values[0], values[1..])[k])
  {
    if values == [] then NoData
    else
      var found := Found(zona, values[0], values[1..]);
      if found != [] then
        ListingListsEntries(found);
        ListingPreamble + Join(found, "\n")
      else NoMatch(zona)
  }

  /** The range read for the chosen sheet. */
  function ListingRange(sheets: seq<SheetMeta>): string {
    "'" + ListingSheet(sheets) + "'!A:G"
  }

  /**
    consultar_propiedades. `metadata` is the spreadsheet's sheet list or the API error;
    `read` gives the values of a range or the API error. The maximum budget is accepted
    and ignored, as in the tool.
  */
  method ConsultarPropiedades(zona: Option<string>, presupuestoMaximo: Option<int>,
                              metadata: Result<seq<SheetMeta>, string>,
                              read: string -> Result<seq<seq<string>>, string>) returns (reply: string)
    ensures metadata.Err? ==> reply == "Error al consultar la base de datos de propiedades: " + metadata.error
    ensures metadata.Ok? && read(ListingRange(metadata.value)).Err? ==>
      reply == "Error al consultar la base de datos de propiedades: " + read(ListingRange(metadata.value)).error
    ensures metadata.Ok? && read(ListingRange(metadata.value)).Ok? ==>
      reply == ListingReply(zona, read(ListingRange(metadata.value)).value)
  {
    if metadata.Err? {
      return "Error al consultar la base de datos de propiedades: " + metadata.error;
    }
    var chosen := ChooseSheet(metadata.value, ListingWord);
    var name := if chosen.Some? then TitleOf(metadata.value[chosen.value]) else ListingWord;
    assert "'" + name + "'!A:G" == ListingRange(metadata.value);
    var result := read("'" + name + "'!A:G");
    if result.Err? {
      return "Error al consultar la base de datos de propiedades: " + result.error;
    }
    var values := result.value;
    if values == [] {
      return NoData;
    }
    var found := ListRows(zona, values[0], values[1..]);
    if found != [] {
      reply := ListingPreamble + Join(found, "\n");
    } else {
      reply := NoMatch(zona);
    }
  }

  /** The loop over the rows after the header: pad, read the columns, filter by zone. */
  method ListRows(zona: Option<string>, header: seq<string>, rows: seq<seq<string>>) returns (found: seq<string>)
    ensures found == Found(zona, header, rows)
  {
    found := [];
    for i := 0 to |rows|
      invariant found == Found(zona, header, rows[..i])
    {
      var row := rows[i];
      if |row| < |header| {
        row := row + seq(|header| - |row|, _ => "");
      }
      assert row == Padded(rows[i], |header|);
      var p := Property(Field(row, 0, "0"), Field(row, 1, "N/A"), Field(row, 2, "N/A"), Field(row, 3, "0"),
                        Field(row, 4, ""), Field(row, 5, ""), Field(row, 6, ""));
      assert p == RowProperty(header, rows[i]);
      var precio := CleanPrice(p.precio);
      FoundSnoc(zona, header, rows, i);
      if ZoneMatches(zona, p.zona) {
        found := found + [Entry(p)];
      }
    }
    assert rows[..|rows|] == rows;
  }

  /** The positions of the rows that pass the zone filter, in sheet order. */
  function MatchIndices(zona: Option<string>, header: seq<string>, rows: seq<seq<string>>): (r: seq<nat>)
    ensures forall k :: 0 <= k < |r| ==> r[k] < |rows|
    decreases |rows|
  {
    if rows == [] then []
    else
      var n := |rows| - 1;
      MatchIndices(zona, header, rows[..n]) + (if RowMatches(zona, header, rows[n]) then [n] else [])
  }

  /** The k-th listed entry is the entry of the k-th matching row, and that row matches. */
  lemma {:induction false} FoundIsListedMatches(zona: Option<string>, header: seq<string>, rows: seq<seq<string>>)
    ensures var idx := MatchIndices(zona, header, rows);
      |idx| == |Found(zona, header, rows)|
      && forall k :: 0 <= k < |idx| ==>
           RowMatches(zona, header, rows[idx[k]]) && Found(zona, header, rows)[k] == Listed(header, rows[idx[k]])
    decreases |rows|
  {
    if rows != [] {
      var n := |rows| - 1;
      var init := rows[..n];
      FoundIsListedMatches(zona, header, init);
      var prev := MatchIndices(zona, header, init);
      assert forall k :: 0 <= k < |prev| ==> rows[prev[k]] == init[prev[k]];
    }
  }

  /** The matching positions increase: the entries keep the sheet's order. */
  lemma {:induction false} MatchIndicesIncrease(zona: Option<string>, header: seq<string>, rows: seq<seq<string>>)
    ensures forall j, k :: 0 <= j < k < |MatchIndices(zona, header, rows)| ==>
      MatchIndices(zona, header, rows)[j] < MatchIndices(zona, header, rows)[k]
    decreases |rows|
  {
    if rows != [] {
      var n := |rows| - 1;
      MatchIndicesIncrease(zona, header, rows[..n]);
      var prev := MatchIndices(zona, header, rows[..n]);
      var idx := MatchIndices(zona, header, rows);
      assert idx == prev + (if RowMatches(zona, header, rows[n]) then [n] else []);
      forall j, k | 0 <= j < k < |idx|
        ensures idx[j] < idx[k]
      {
        assert idx[j] == prev[j];
        if k < |prev| {
          assert idx[k] == prev[k];
        }
      }
    }
  }

  /** Every row that passes the zone filter is listed. */
  lemma {:induction false} MatchIndicesComplete(zona: Option<string>, header: seq<string>, rows: seq<seq<string>>)
    ensures forall i :: 0 <= i < |rows| && RowMatches(zona, header, rows[i]) ==> i in MatchIndices(zona, header, rows)
    decreases |rows|
  {
    if rows != [] {
      var n := |rows| - 1;
      var init := rows[..n];
      MatchIndicesComplete(zona, header, init);
      forall i | 0 <= i < n && RowMatches(zona, header, rows[i])
        ensures i in MatchIndices(zona, header, init)
      {
        assert rows[i] == init[i];
      }
    }
  }

  /** Something is listed exactly when some data row passes the zone filter. */
  lemma {:induction false} SomethingListedIffSomeMatch(zona: Option<string>, header: seq<string>, rows: seq<seq<string>>)
    ensures Found(zona, header, rows) != [] <==> exists i :: 0 <= i < |rows| && RowMatches(zona, header, rows[i])
  {
    FoundIsListedMatches(zona, header, rows);
    MatchIndicesComplete(zona, header, rows);
    var idx := MatchIndices(zona, header, rows);
    if idx != [] {
      assert RowMatches(zona, header, rows[idx[0]]);
    }
  }

  /** With no zone to filter by, every row after the header is listed. */
  lemma {:induction false} NoZoneListsEveryRow(header: seq<string>, rows: seq<seq<string>>)
    ensures |Found(None, header, rows)| == |rows|
    decreases |rows|
  {
    if rows != [] {
      NoZoneListsEveryRow(header, rows[..|rows| - 1]);
    }
  }

  /** The answer names the header's row never: a sheet with only a header lists nothing. */
  lemma {:induction false} HeaderOnlyListsNothing(zona: Option<string>, header: seq<string>)
    ensures ListingReply(zona, [header]) == NoMatch(zona)
  {
    assert [header][1..] == [];
  }

  // ---------------------------------------------------------------------------
  // registrar_lead
  // ---------------------------------------------------------------------------

  const LeadStatus := "Calificado - Agendando"

  /** The row appended: name, contact, zone, budget, status, and a note with urgency and zone. */
  function LeadRow(nombre: string, contacto: string, presupuesto: string, zona: string, urgencia: string)
    : (row: seq<string>)
    ensures |row| == 6 && row[0] == nombre && row[1] == contacto && row[2] == zona && row[3] == presupuesto
    ensures row[4] == LeadStatus
    ensures row[5] == "Urgencia/Plazo: " + urgencia + ". Zona de interés: " + zona + "."
  {
    [nombre, contacto, zona, presupuesto, LeadStatus, "Urgencia/Plazo: " + urgencia + ". Zona de interés: " + zona + "."]
  }

  /** One `values().append` call: the range and its rows. */
  datatype Append = Append(range: string, rows: seq<seq<string>>)

  /** The spreadsheet as the lead tool sees it: its sheets, and the appends made to it. */
  class Workbook {
    const sheets: seq<SheetMeta>
    var appended: seq<Append>

    constructor(sheets: seq<SheetMeta>)
      ensures this.sheets == sheets && appended == []
    {
      this.sheets := sheets;
      appended := [];
    }

    /**
      registrar_lead: choose the leads sheet and append the lead's row there. With no
      leads sheet, answer the error text and append nothing; an API failure
      (`failure`) leaves the sheet unchanged.
    */
    method RegistrarLead(nombre: string, contacto: string, presupuesto: string, zona: string, urgencia: string,
                         failure: Option<string>) returns (reply: string)
      modifies this
      ensures LeadsSheet(sheets).Err? ==> reply == NoLeadsTab && appended == old(appended)
      ensures LeadsSheet(sheets).Ok? && failure.Some? ==>
        reply == "Error al registrar el lead: " + failure.value && appended == old(appended)
      ensures LeadsSheet(sheets).Ok? && failure.None? ==>
        && reply == "Lead (" + nombre + ") registrado exitosamente en el CRM."
        && appended == old(appended) + [Append("'" + OrNone(LeadsSheet(sheets).value) + "'!A:F",
                                               [LeadRow(nombre, contacto, presupuesto, zona, urgencia)])]
    {
      var chosen := ChooseSheet(sheets, "lead");
      var title: Option<string> := None;
      if chosen.Some? {
        title := Some(TitleOf(sheets[chosen.value]));
      } else if |sheets| > 1 {
        title := sheets[1].title;
      } else {
        return NoLeadsTab;
      }
      if failure.Some? {
        return "Error al registrar el lead: " + failure.value;
      }
      var row := [nombre, contacto, zona, presupuesto, LeadStatus,
                  "Urgencia/Plazo: " + urgencia + ". Zona de interés: " + zona + "."];
      appended := appended + [Append("'" + OrNone(title) + "'!A:F", [row])];
      reply := "Lead (" + nombre + ") registrado exitosamente en el CRM.";
    }
  }

  // ---------------------------------------------------------------------------
  // Appointments: 30 minutes long
  // ---------------------------------------------------------------------------

  /** A wall-clock time as seconds from the start of the calendar. */
  function Seconds(t: Now): int {
    Ordinal(t.date) * 86400 + t.hour * 3600 + t.minute * 60 + t.second
  }

  /** `start + timedelta(minutes=30)`, crossing midnight into the next day when needed. */
  function HalfHourAfter(t: Now): (r: Now)
    ensures Seconds(r) == Seconds(t) + 1800
  {
    var mins := t.hour * 60 + t.minute + 30;
    if mins < 1440 then Instant(t.date, mins / 60, mins % 60, t.second)
    else Instant(NextDate(t.date), (mins - 1440) / 60, (mins - 1440) % 60, t.second)
  }

  /** `%Y-%m-%d`. */
  function IsoDate(d: Date): string
    requires Valid(d)
  {
    Decimal(d.year) + "-" + TwoDigits(d.month) + "-" + TwoDigits(d.day)
  }

  /** `%Y-%m-%d %H:%M`. */
  function Stamp(t: Now): string {
    IsoDate(t.date) + " " + TwoDigits(t.hour) + ":" + TwoDigits(t.minute)
  }

  datatype CalEvent = CalEvent(summary: string, description: string, attendee: string, start: Now, end: Now)

  /** An event is an appointment of the tools' kind when it lasts exactly 30 minutes. */
  predicate HalfHour(e: CalEvent) {
    Seconds(e.end) == Seconds(e.start) + 1800
  }

  predicate AllHalfHour(events: map<string, CalEvent>) {
    forall id :: id in events ==> HalfHour(events[id])
  }

  /** The event agendar_cita creates for a client. */
  function NewAppointment(start: Now, nombre: string, correo: string, motivo: string): (e: CalEvent)
    ensures HalfHour(e) && e.start == start && e.attendee == correo
  {
    CalEvent(motivo + " - " + nombre,
             "Llamada de perfilación y presentación de opciones exclusivas.\nCliente: " + nombre
             + "\nContacto/Correo: " + correo,
             correo, start, HalfHourAfter(start))
  }

  const BadDateHint := ". Intenta confirmar el formato de la fecha."
  const NothingToMove := "No se encontró ninguna cita futura con ese correo para modificar."
  const NothingToCancel := "No se encontró ninguna cita futura con ese correo para cancelar."

  /** The broker's calendar: events by id. */
  class Calendar {
    var events: map<string, CalEvent>

    constructor()
      ensures events == map[]
    {
      events := map[];
    }

    /**
      agendar_cita: a new event from `start` to 30 minutes later, under the id and Meet
      link the service assigns. A failure (a date that does not parse, an API error)
      changes nothing.
    */
    method AgendarCita(start: Now, nombre: string, correo: string, motivo: string,
                       newId: string, meetLink: Option<string>, failure: Option<string>) returns (reply: string)
      modifies this
      ensures failure.Some? ==>
        events == old(events) && reply == "Error al intentar agendar la cita en Calendar: " + failure.value + BadDateHint
      ensures failure.None? ==>
        && events == old(events)[newId := NewAppointment(start, nombre, correo, motivo)]
        && reply == "Cita agendada para el " + Stamp(start) + ". Link de Meet: " + OrNone(meetLink)
      ensures AllHalfHour(old(events)) ==> AllHalfHour(events)
    {
      if failure.Some? {
        return "Error al intentar agendar la cita en Calendar: " + failure.value + BadDateHint;
      }
      var end := HalfHourAfter(start);
      var event := CalEvent(motivo + " - " + nombre,
                            "Llamada de perfilación y presentación de opciones exclusivas.\nCliente: " + nombre
                            + "\nContacto/Correo: " + correo,
                            correo, start, end);
      events := events[newId := event];
      reply := "Cita agendada para el " + Stamp(start) + ". Link de Meet: " + OrNone(meetLink);
    }

    /**
      reagendar_cita: `search` is what the search for the client's future events returned
      (their ids in start order) or its error; `failure` is a failure after it (a new date
      that does not parse, the update call). Only the first event found is moved, to
      `newStart` and 30 minutes later; its other data and every other event stay.
    */
    method ReagendarCita(correo: string, search: Result<seq<string>, string>, newStart: Now,
                         meetLink: Option<string>, failure: Option<string>) returns (reply: string)
      requires search.Ok? ==> forall k :: 0 <= k < |search.value| ==> search.value[k] in events
      modifies this
      ensures search.Err? ==> events == old(events) && reply == "Error al modificar la cita: " + search.error
      ensures search == Ok([]) ==> events == old(events) && reply == NothingToMove
      ensures search.Ok? && search.value != [] && failure.Some? ==>
        events == old(events) && reply == "Error al modificar la cita: " + failure.value
      ensures search.Ok? && search.value != [] && failure.None? ==>
        var id := search.value[0];
        && events == old(events)[id := old(events)[id].(start := newStart, end := HalfHourAfter(newStart))]
        && reply == "La cita para " + correo + " fue exitosamente movida al " + Stamp(newStart) + ". Link: " + OrNone(meetLink)
      ensures AllHalfHour(old(events)) ==> AllHalfHour(events)
    {
      if search.Err? {
        return "Error al modificar la cita: " + search.error;
      }
      if search.value == [] {
        return NothingToMove;
      }
      if failure.Some? {
        return "Error al modificar la cita: " + failure.value;
      }
      var id := search.value[0];
      var event := events[id];
      event := event.(start := newStart);
      event := event.(end := HalfHourAfter(newStart));
      events := events[id := event];
      reply := "La cita para " + correo + " fue exitosamente movida al " + Stamp(newStart) + ". Link: " + OrNone(meetLink);
    }

    /** cancelar_cita: only the first event the search returned is deleted. */
    method CancelarCita(correo: string, search: Result<seq<string>, string>, failure: Option<string>)
      returns (reply: string)
      modifies this
      ensures search.Err? ==> events == old(events) && reply == "Error al cancelar la cita: " + search.error
      ensures search == Ok([]) ==> events == old(events) && reply == NothingToCancel
      ensures search.Ok? && search.value != [] && failure.Some? ==>
        events == old(events) && reply == "Error al cancelar la cita: " + failure.value
      ensures search.Ok? && search.value != [] && failure.None? ==>
        && events == old(events) - {search.value[0]}
        && reply == "La cita futura bajo el correo " + correo + " fue cancelada y borrada silenciosamente."
      ensures AllHalfHour(old(events)) ==> AllHalfHour(events)
    {
      if search.Err? {
        return "Error al cancelar la cita: " + search.error;
      }
      if search.value == [] {
        return NothingToCancel;
      }
      if failure.Some? {
        return "Error al cancelar la cita: " + failure.value;
      }
      events := events - {search.value[0]};
      reply := "La cita futura bajo el correo " + correo + " fue cancelada y borrada silenciosamente.";
    }
  }

  // ---------------------------------------------------------------------------
  // obtener_horarios_disponibles
  // ---------------------------------------------------------------------------

  /** The working hours of a weekday (0 = Monday), with the dictionary's default. */
  function WorkingHours(weekday: int): string {
    if weekday == 0 then "Lunes: de 09:00 a 15:00"
    else if weekday == 1 then "Martes: de 09:00 a 18:00"
    else if weekday == 2 then "Miércoles: de 09:00 a 18:00"
    else if weekday == 3 then "Jueves: de 09:00 a 15:00"
    else if weekday == 4 then "Viernes: de 09:00 a 15:00"
    else "09:00 a 18:00"
  }

  /** Monday to Friday each have their own entry; the default is never reached on a working day. */
  lemma {:induction false} WorkingDaysHaveHours(weekday: int)
    requires 0 <= weekday < 5
    ensures WorkingHours(weekday) != "09:00 a 18:00"
    ensures WorkingHours(weekday)[..|DiasSemana[weekday]|] == DiasSemana[weekday]
  {
  }

  /** `start` or `end` of a listed event: its dateTime, else its date. */
  datatype EventTime = EventTime(dateTime: Option<string>, date: Option<string>)

  function TimeText(t: EventTime): string {
    if t.dateTime.Some? then t.dateTime.value else OrNone(t.date)
  }

  datatype Busy = Busy(start: EventTime, end: EventTime)

  function BusyLine(b: Busy): string {
    "De " + TimeText(b.start) + " a " + TimeText(b.end)
  }

  function BusyLines(bs: seq<Busy>): (r: seq<string>)
    ensures |r| == |bs|
    ensures forall k :: 0 <= k < |bs| ==> r[k] == BusyLine(bs[k])
  {
    seq(|bs|, k requires 0 <= k < |bs| => BusyLine(bs[k]))
  }

  const WeekendTail :=
    " es FIN DE SEMANA. El broker NO TRABAJA los fines de semana. Dile al cliente que solo atiendes de lunes a viernes e indícale que te sugiera un día hábil."
  const FreeDayRules :=
    " (GMT-3).\n\n🚨 REGLAS ESTRICTAS DE AGENDA:\n1. Las citas duran EXACTAMENTE 30 minutos.\n2. El último turno agendable comienza 30 minutos antes del cierre (Ej. Si cierras a las 18:00, solo puedes agendar hasta las 17:30).\n3. NUNCA le envíes al cliente la lista gigante de horarios. Pregúntale si prefiere mañana o tarde y dale SOLO 2 O 3 opciones concretas."
  const BusyIntro := ", la agenda ya está OCUPADA en los siguientes horarios por otras reuniones:\n"
  const BusyRulesHead := "\n\n🚨 REGLAS ESTRICTAS DE AGENDA:\n1. Tu horario de trabajo hoy es "
  const BusyRulesTail :=
    " (GMT-3).\n2. Las citas duran EXACTAMENTE 30 minutos.\n3. El último turno agendable comienza 30 minutos antes del cierre.\n4. NUNCA listes todos los horarios libres. Pregunta preferencia (mañana/tarde) y ofrece SOLO 2 O 3 opciones puntuales que NO se superpongan con las reuniones ocupadas."

  const HoursError := "Error al consultar horarios: "
  const FreeIntroTail := ") NO hay reuniones que bloqueen la agenda. Tu horario de atención hoy es "

  /** The busy-day answer lists every busy slot. */
  lemma {:induction false} BusyLinesListed(events: seq<Busy>, t: string)
    requires forall p :: Contains(Join(BusyLines(events), "\n"), p) ==> Contains(t, p)
    ensures forall k :: 0 <= k < |events| ==> Contains(t, BusyLine(events[k]))
  {
    forall k | 0 <= k < |events|
      ensures Contains(t, BusyLine(events[k]))
    {
      JoinContains(BusyLines(events), "\n", k);
    }
  }

  /**
    The answer for a day. `setup` is what getting the calendar service and parsing the
    date give: the day asked about, or the text of what they raised; both happen before
    the weekend check. Weekends are then turned away before the calendar is asked;
    otherwise `query` is the day's events (or the API error), and the answer gives the
    day's hours with or without the busy slots.
  */
  function HoursReply(setup: Result<Date, string>, query: Date -> Result<seq<Busy>, string>): (r: string)
    requires setup.Ok? ==> Valid(setup.value)
    ensures setup.Err? ==> r == HoursError + setup.error
    ensures setup.Ok? && Weekday(setup.value) >= 5 ==> r == "El día " + IsoDate(setup.value) + WeekendTail
    ensures setup.Ok? && Weekday(setup.value) < 5 && query(setup.value).Err? ==>
      r == HoursError + query(setup.value).error
    ensures setup.Ok? && Weekday(setup.value) < 5 && query(setup.value).Ok? ==>
      && Contains(r, IsoDate(setup.value)) && Contains(r, WorkingHours(Weekday(setup.value)))
      && forall k :: 0 <= k < |query(setup.value).value| ==> Contains(r, BusyLine(query(setup.value).value[k]))
  {
    match setup
    case Err(e) => HoursError + e
    case Ok(day) =>
      if Weekday(day) >= 5 then "El día " + IsoDate(day) + WeekendTail
      else
        var hours := WorkingHours(Weekday(day));
        match query(day)
        case Err(e) => HoursError + e
        case Ok(events) =>
          if events == [] then
            FivePiecesContain("Ese día (", IsoDate(day), FreeIntroTail, hours, FreeDayRules);
            "Ese día (" + IsoDate(day) + FreeIntroTail + hours + FreeDayRules
          else
            var listed := Join(BusyLines(events), "\n");
            var r := "Para el día " + IsoDate(day) + BusyIntro + listed + BusyRulesHead + hours + BusyRulesTail;
            SevenPiecesContain("Para el día ", IsoDate(day), BusyIntro, listed, BusyRulesHead, hours, BusyRulesTail);
            BusyLinesListed(events, r);
            r
  }

  /**
    On Saturday and Sunday the answer does not depend on the calendar at all, while a
    failure before the weekend check is reported even for a weekend day.
  */
  lemma {:induction false} WeekendIgnoresCalendar(setup: Result<Date, string>, q1: Date -> Result<seq<Busy>, string>,
                                                  q2: Date -> Result<seq<Busy>, string>)
    requires setup.Ok? ==> Valid(setup.value) && Weekday(setup.value) >= 5
    ensures HoursReply(setup, q1) == HoursReply(setup, q2)
    ensures HoursReply(setup, q1)[..|HoursError|] == HoursError <==> setup.Err?
  {
    if setup.Ok? {
      assert HoursReply(setup, q1)[1] == 'l' != HoursError[1];
    }
  }
}
