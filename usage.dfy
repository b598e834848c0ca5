/** Callers of the builder: the configurations the library is used with,
    and what the built template then renders. */
module Usage {
  import opened Wrappers
  import opened Rows
  import opened TemplateBuilder

  /** A document that is itself the sequence of records, configured with
      columns only: Build falls back to the identity projection and keeps the
      comma, so every record is rendered in its own order, and the output
      reads back as the headers and the records' cells. */
  method RenderRecordsDirectly<R>(columns: seq<Column<R>>, records: seq<R>) returns (lines: seq<string>)
    requires |columns| > 0
    ensures lines == Lines(",", Headers(columns), Mappers(columns), records)
    ensures ParseDocument(lines)
         == Some(Table(",", Headers(columns), RecordCells(Mappers(columns), records)))
  {
    var builder := CreateForRecords<R>();
    builder := builder.AddColumns(Appending(columns));
    assert builder.columns == columns;
    var built := builder.Build();
    assert builder.template.headers == Headers(columns);
    assert builder.template.accessors == Mappers(columns);
    var output := builder.template.Render(records);
    lines := output.value;
    ParseRendered(",", Headers(columns), Mappers(columns), records);
  }

  /** The built template is the builder's own: a delimiter set after Build
      still reaches the output, while columns added after Build do not. */
  method ReconfigureAfterBuild<D, R>(columns: seq<Column<R>>, more: seq<Column<R>>, projection: D -> seq<R>,
                                     first: string, second: string, data: D)
    returns (lines: seq<string>)
    requires |columns| > 0
    ensures lines == Lines(second, Headers(columns), Mappers(columns), projection(data))
  {
    var builder := Create<D, R>(None);
    builder := builder.AddColumns(Appending(columns));
    builder := builder.WithProjector(Some(projection));
    builder := builder.WithDelimiter(first);
    var built := builder.Build();
    assert built.Success?;
    var template := built.value;
    assert template.headers == Headers(columns);
    assert template.accessors == Mappers(columns);
    builder := builder.AddColumns(Appending(more));
    builder := builder.WithDelimiter(second);
    var output := template.Render(data);
    lines := output.value;
  }

  /** Build with no column fails, whatever else was configured. */
  method BuildWithoutColumns<D, R>(projection: D -> seq<R>, delimiter: string) returns (error: Option<BuildError>)
    ensures error == Some(NoColumns)
    ensures error.Some? && Message(error.value) == "No columns have been defined."
  {
    var builder := Create<D, R>(None);
    builder := builder.WithProjector(Some(projection));
    builder := builder.WithDelimiter(delimiter);
    var built := builder.Build();
    error := if built.Failure? then Some(built.error) else None;
  }

  /** A document type that cannot hold a sequence of records (one that is not
      a supertype of the record sequence type), with no projector, cannot be
      built even when it has columns. */
  method BuildWithoutProjector<D, R>(columns: seq<Column<R>>) returns (error: Option<BuildError>)
    requires |columns| > 0
    ensures error == Some(NoProjector)
    ensures error.Some? && Message(error.value) == "A projector must be specified."
  {
    var builder := Create<D, R>(None);
    builder := builder.AddColumns(Appending(columns));
    var built := builder.Build();
    error := if built.Failure? then Some(built.error) else None;
  }

  /** A null projector set after a real one unsets it: Build then behaves as
      if no projector had ever been given, and for a document type that
      cannot hold a sequence of records it fails. */
  method UnsetProjector<D, R>(columns: seq<Column<R>>, projection: D -> seq<R>) returns (error: Option<BuildError>)
    requires |columns| > 0
    ensures error == Some(NoProjector)
  {
    var builder := Create<D, R>(None);
    builder := builder.AddColumns(Appending(columns));
    builder := builder.WithProjector(Some(projection));
    builder := builder.WithProjector(None);
    var built := builder.Build();
    error := if built.Failure? then Some(built.error) else None;
  }

  /** A null projector set after a successful Build reaches the built
      template too, which then has nothing to render with: rendering fails. */
  method UnsetProjectorAfterBuild<D, R>(columns: seq<Column<R>>, projection: D -> seq<R>, data: D)
    returns (succeeded: bool, output: Option<seq<string>>)
    requires |columns| > 0
    ensures succeeded && output == None
  {
    var builder := Create<D, R>(None);
    builder := builder.AddColumns(Appending(columns));
    builder := builder.WithProjector(Some(projection));
    var built := builder.Build();
    succeeded := built.Success?;
    builder := builder.WithProjector(None);
    output := built.value.Render(data);
  }

  /** Columns added over two AddColumns calls end up in the template in call
      order, each call's columns in their own order; with a projector set,
      Build succeeds exactly when the two calls added some column. */
  method AddColumnsTwice<D, R>(first: seq<Column<R>>, second: seq<Column<R>>, projection: D -> seq<R>)
    returns (headers: seq<string>, accessors: seq<Mapper<R>>, succeeded: bool)
    ensures succeeded <==> |first + second| > 0
    ensures headers == Headers(first) + Headers(second)
    ensures accessors == Mappers(first) + Mappers(second)
  {
    var builder := Create<D, R>(None);
    builder := builder.AddColumns(Appending(first));
    builder := builder.AddColumns(Appending(second));
    assert builder.columns == first + second;
    builder := builder.WithProjector(Some(projection));
    var built := builder.Build();
    headers, accessors := builder.template.headers, builder.template.accessors;
    succeeded := built.Success?;
    assert headers == Headers(first) + Headers(second);
    assert accessors == Mappers(first) + Mappers(second);
  }

  /** Of two projectors and two delimiters, the last of each is the one the
      template renders with. */
  method LastSettingWins<D, R>(columns: seq<Column<R>>, p1: D -> seq<R>, p2: D -> seq<R>,
                               d1: string, d2: string, data: D)
    returns (lines: seq<string>)
    requires |columns| > 0
    ensures lines == Lines(d2, Headers(columns), Mappers(columns), p2(data))
  {
    var builder := Create<D, R>(None);
    builder := builder.WithDelimiter(d1);
    builder := builder.AddColumns(Appending(columns));
    builder := builder.WithProjector(Some(p1));
    builder := builder.WithDelimiter(d2);
    builder := builder.WithProjector(Some(p2));
    var built := builder.Build();
    assert builder.template.headers == Headers(columns);
    assert builder.template.accessors == Mappers(columns);
    var output := built.value.Render(data);
    lines := output.value;
  }
}
