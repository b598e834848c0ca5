/** The fluent template builder and the template it builds. The builder owns
    one mutable template object from the start; WithProjector and
    WithDelimiter write straight into it, and Build hands out that same
    object rather than a copy. */
module TemplateBuilder {
  import opened Wrappers
  import opened Rows

  /** One column definition: its header text and its cell mapper. */
  datatype Column<!R> = Column(header: string, mapper: Mapper<R>)

  /** The two configuration errors Build raises. */
  datatype BuildError = NoColumns | NoProjector

  /** The text of the exception each error is raised with. */
  function Message(e: BuildError): string
  {
    match e
    case NoColumns => "No columns have been defined."
    case NoProjector => "A projector must be specified."
  }

  /** The headers of the columns, in declaration order (`Select(x => x.Item1)`). */
  function Headers<R>(columns: seq<Column<R>>): seq<string>
  {
    seq(|columns|, i requires 0 <= i < |columns| => columns[i].header)
  }

  /** The mappers of the columns, in declaration order (`Select(x => x.Item2)`). */
  function Mappers<R>(columns: seq<Column<R>>): seq<Mapper<R>>
  {
    seq(|columns|, i requires 0 <= i < |columns| => columns[i].mapper)
  }

  /** The usual AddColumns callback: `columns.Add(...)` for each given column. */
  function Appending<R>(added: seq<Column<R>>): seq<Column<R>> -> seq<Column<R>>
  {
    columns => columns + added
  }

  /** The template (CsvTemplate): headers, mappers, projector and delimiter.
      Its fields are assigned by the builder that owns it. */
  class Template<D, !R> {
    var headers: seq<string>
    var accessors: seq<Mapper<R>>
    var projector: Option<D -> seq<R>>
    var delimiter: string

    /** A fresh template has no projector yet and the comma as delimiter. */
    constructor ()
      ensures headers == [] && accessors == []
      ensures projector == None && delimiter == ","
    {
      headers := [];
      accessors := [];
      projector := None;
      delimiter := ",";
    }

    /** What a successful Build leaves behind: a projector, and as many
        mappers as headers, at least one of each. */
    predicate Ready()
      reads this
    {
      projector.Some? && |headers| == |accessors| && |headers| > 0
    }

    /** RenderToFileAsync, with the file left out: the lines it writes, in
        order. The hint line names the delimiter, the header line quotes the
        headers, and each record the projector yields, in the order it yields
        them, gets one line of its quoted cells in column order; every join
        uses the delimiter. With no projector (one unset after Build) the
        source throws when it calls it: the result is then None. */
    method Render(data: D) returns (output: Option<seq<string>>)
      ensures output.None? <==> projector.None?
      ensures output.Some? ==> var records := projector.value(data); var lines := output.value;
        && |lines| == |records| + 2
        && lines[0] == "sep=" + delimiter
        && lines[1] == QuotedLine(delimiter, headers)
        && (forall k :: 0 <= k < |records| ==> lines[k + 2] == QuotedLine(delimiter, Cells(accessors, records[k])))
      ensures output.Some? ==> output.value == Lines(delimiter, headers, accessors, projector.value(data))
    {
      if projector.None? {
        return None;
      }
      var records := projector.value(data);
      var lines := ["sep=" + delimiter];
      lines := lines + [Join(delimiter, QuoteAll(headers))];
      var i := 0;
      while i < |records|
        invariant 0 <= i <= |records|
        invariant |lines| == i + 2
        invariant lines[0] == "sep=" + delimiter && lines[1] == QuotedLine(delimiter, headers)
        invariant forall k :: 0 <= k < i ==> lines[k + 2] == QuotedLine(delimiter, Cells(accessors, records[k]))
      {
        lines := lines + [Join(delimiter, QuoteAll(Cells(accessors, records[i])))];
        i := i + 1;
      }
      output := Some(lines);
    }
  }

  /** The builder (CsvTemplateBuilder<TData, TRecord>). `documentAsRecords`
      stands for the type test the builder makes when no projector is given:
      Some(cast) when the document type can hold a sequence of records, the
      cast being how a document is then read as its records; None otherwise. */
  class Builder<D, !R> {
    const template: Template<D, R>
    var columns: seq<Column<R>>
    const documentAsRecords: Option<D -> seq<R>>

    /** A builder with no columns, no projector and the default delimiter. */
    constructor (documentAsRecords: Option<D -> seq<R>>)
      ensures fresh(template)
      ensures columns == [] && this.documentAsRecords == documentAsRecords
      ensures template.headers == [] && template.accessors == []
      ensures template.projector == None && template.delimiter == ","
    {
      template := new Template();
      columns := [];
      this.documentAsRecords := documentAsRecords;
    }

    /** Hands the live column list to the callback, which may change it in
        any way (usually it appends); the template is not touched. */
    method AddColumns(columnBuilder: seq<Column<R>> -> seq<Column<R>>) returns (b: Builder<D, R>)
      modifies this
      ensures b == this
      ensures columns == columnBuilder(old(columns))
      ensures unchanged(template)
    {
      columns := columnBuilder(columns);
      b := this;
    }

    /** Sets the projector of the template, replacing any earlier one.
        `None` stands for a null argument: it unsets the projector, so Build
        then treats the template as having none. */
    method WithProjector(projection: Option<D -> seq<R>>) returns (b: Builder<D, R>)
      modifies template
      ensures b == this
      ensures template.projector == projection
      ensures template.headers == old(template.headers) && template.accessors == old(template.accessors)
      ensures template.delimiter == old(template.delimiter)
    {
      template.projector := projection;
      b := this;
    }

    /** Sets the delimiter of the template, replacing any earlier one. No
        check is made on it. */
    method WithDelimiter(delimiter: string) returns (b: Builder<D, R>)
      modifies template
      ensures b == this
      ensures template.delimiter == delimiter
      ensures template.headers == old(template.headers) && template.accessors == old(template.accessors)
      ensures template.projector == old(template.projector)
    {
      template.delimiter := delimiter;
      b := this;
    }

    /** Snapshots the headers and mappers of the columns into the template,
        in column order, then validates: no columns is an error; with no
        projector, the document-as-records cast is installed when there is
        one, and otherwise it is an error. On success the builder's own
        template is returned, so later WithProjector and WithDelimiter calls
        still change it, while later AddColumns calls do not. */
    method Build() returns (result: Result<Template<D, R>, BuildError>)
      modifies template
      ensures |template.headers| == |columns| && |template.accessors| == |columns|
      ensures forall i :: 0 <= i < |columns| ==>
                template.headers[i] == columns[i].header && template.accessors[i] == columns[i].mapper
      ensures template.delimiter == old(template.delimiter)
      ensures columns == [] ==> result == Failure(NoColumns) && template.projector == old(template.projector)
      ensures columns != [] && old(template.projector).None? && documentAsRecords.None? ==>
                result == Failure(NoProjector) && template.projector == None
      ensures result.Success? <==> columns != [] && (old(template.projector).Some? || documentAsRecords.Some?)
      ensures result.Success? ==>
                && result.value == template
                && template.Ready()
                && template.projector == (if old(template.projector).Some? then old(template.projector) else documentAsRecords)
    {
      template.headers := Headers(columns);
      template.accessors := Mappers(columns);
      if |template.headers| == 0 {
        return Failure(NoColumns);
      }
      if template.projector.None? {
        if documentAsRecords.Some? {
          template.projector := documentAsRecords;
        } else {
          return Failure(NoProjector);
        }
      }
      result := Success(template);
    }
  }

  /** Create<TData, TRecord>(): a builder for documents of type D whose rows
      are records of type R; `documentAsRecords` is the outcome of the type
      test described at Builder. */
  method Create<D, R>(documentAsRecords: Option<D -> seq<R>>) returns (b: Builder<D, R>)
    ensures fresh(b) && fresh(b.template)
    ensures b.columns == [] && b.documentAsRecords == documentAsRecords
    ensures b.template.projector == None && b.template.delimiter == ","
  {
    b := new Builder(documentAsRecords);
  }

  /** Create<TRecord>(): a builder whose document is itself the sequence of
      records, so that Build can always fall back to the identity projection. */
  method CreateForRecords<R>() returns (b: Builder<seq<R>, R>)
    ensures fresh(b) && fresh(b.template)
    ensures b.columns == [] && b.documentAsRecords.Some?
    ensures forall records: seq<R> :: b.documentAsRecords.value(records) == records
    ensures b.template.projector == None && b.template.delimiter == ","
  {
    b := new Builder(Some(records => records));
  }
}
