/**
 * The Enigma API client: a Client holding the API key, and the four query
 * builders it hands out. Each builder owns a multi-map of URL parameters
 * that its setters append to, one value per call under a fixed name, and
 * each setter returns the builder itself so that calls can be chained.
 */
module Enigma {
  import opened Strings
  import opened UrlValues
  import Address
  import opened Dispatch
  import opened Poller

  /** How several Search or Where parameters combine. */
  type Conjunction = string
  const Or: Conjunction := "or"
  const And: Conjunction := "and"

  /** The direction marker appended to a sort column. */
  type SortDirection = string
  const Asc: SortDirection := "+"
  const Desc: SortDirection := "-"

  /** A calculation that a stats request performs on the selected column. */
  type Operation = string
  const Sum: Operation := "sum"
  const Avg: Operation := "avg"
  const StdDev: Operation := "stddev"
  const Variance: Operation := "variance"
  const Max: Operation := "max"
  const Min: Operation := "min"
  const Frequency: Operation := "frequency"

  /** The decoded body of an export request. */
  datatype ExportResponse = ExportResponse(dataPath: string, exportURL: string, headURL: string)

  const NoExport := ExportResponse("", "", "")

  /** Metadata queries. They carry no parameters (a nil url.Values in the client). */
  class MetaQuery {
    const baseURI: string
    const datapath: string
    const params: Params := map[]

    constructor (baseURI: string)
      ensures this.baseURI == baseURI && datapath == ""
    {
      this.baseURI := baseURI;
      datapath := "";
    }

    /** Parent-node metadata of `datapath`; the request URL never has a query string. */
    method Parent<R(==)>(datapath: string, encode: Params -> string, get: string -> Reply<R>, zero: R)
      returns (o: Outcome<R>)
      ensures o == Classify(get(baseURI + "/" + datapath), zero)
    {
      o := DoQuery(baseURI, datapath, params, encode, get, zero);
    }

    /** Table metadata of `datapath`; the request URL never has a query string. */
    method Table<R(==)>(datapath: string, encode: Params -> string, get: string -> Reply<R>, zero: R)
      returns (o: Outcome<R>)
      ensures o == Classify(get(baseURI + "/" + datapath), zero)
    {
      o := DoQuery(baseURI, datapath, params, encode, get, zero);
    }
  }

  /** Statistics on one column of a table. */
  class StatsQuery {
    const baseURI: string
    const datapath: string
    var params: Params

    constructor (baseURI: string, datapath: string)
      ensures this.baseURI == baseURI && this.datapath == datapath && params == map[]
    {
      this.baseURI := baseURI;
      this.datapath := datapath;
      params := map[];
    }

    /** The mandatory column, set once by Client.Stats. */
    method SelectColumn(column: string) returns (q: StatsQuery)
      modifies this
      ensures q == this && params == Add(old(params), "select", column)
    {
      params := Add(params, "select", column);
      q := this;
    }

    method Limit(limit: int) returns (q: StatsQuery)
      modifies this
      ensures q == this && params == Add(old(params), "limit", Itoa(limit))
    {
      params := Add(params, "limit", Itoa(limit));
      q := this;
    }

    method Search(query: string) returns (q: StatsQuery)
      modifies this
      ensures q == this && params == Add(old(params), "search", query)
    {
      params := Add(params, "search", query);
      q := this;
    }

    method Where(query: string) returns (q: StatsQuery)
      modifies this
      ensures q == this && params == Add(old(params), "where", query)
    {
      params := Add(params, "where", query);
      q := this;
    }

    method Conjunction(conjunction: Conjunction) returns (q: StatsQuery)
      modifies this
      ensures q == this && params == Add(old(params), "conjunction", conjunction)
    {
      params := Add(params, "conjunction", conjunction);
      q := this;
    }

    method Operation(operation: Operation) returns (q: StatsQuery)
      modifies this
      ensures q == this && params == Add(old(params), "operation", operation)
    {
      params := Add(params, "operation", operation);
      q := this;
    }

    method By(operation: Operation) returns (q: StatsQuery)
      modifies this
      ensures q == this && params == Add(old(params), "by", operation)
    {
      params := Add(params, "by", operation);
      q := this;
    }

    method Of(column: string) returns (q: StatsQuery)
      modifies this
      ensures q == this && params == Add(old(params), "of", column)
    {
      params := Add(params, "of", column);
      q := this;
    }

    /** Only a direction: the column sorted on is the selected one. */
    method Sort(direction: SortDirection) returns (q: StatsQuery)
      modifies this
      ensures q == this && params == Add(old(params), "sort", direction)
    {
      params := Add(params, "sort", direction);
      q := this;
    }

    method Page(number: int) returns (q: StatsQuery)
      modifies this
      ensures q == this && params == Add(old(params), "page", Itoa(number))
    {
      params := Add(params, "page", Itoa(number));
      q := this;
    }

    method Results<R(==)>(encode: Params -> string, get: string -> Reply<R>, zero: R) returns (o: Outcome<R>)
      ensures o == Classify(get(Address.BuildURL(baseURI, datapath, params, encode)), zero)
    {
      o := DoQuery(baseURI, datapath, params, encode, get, zero);
    }
  }

  /** Row data of a table. */
  class DataQuery {
    const baseURI: string
    const datapath: string
    var params: Params

    constructor (baseURI: string, datapath: string)
      ensures this.baseURI == baseURI && this.datapath == datapath && params == map[]
    {
      this.baseURI := baseURI;
      this.datapath := datapath;
      params := map[];
    }

    method Limit(number: int) returns (q: DataQuery)
      modifies this
      ensures q == this && params == Add(old(params), "limit", Itoa(number))
    {
      params := Add(params, "limit", Itoa(number));
      q := this;
    }

    /** All the columns go into one comma-joined `select` value. */
    method Select(columns: seq<string>) returns (q: DataQuery)
      modifies this
      ensures q == this && params == Add(old(params), "select", Join(columns, ","))
    {
      params := Add(params, "select", Join(columns, ","));
      q := this;
    }

    method Search(query: string) returns (q: DataQuery)
      modifies this
      ensures q == this && params == Add(old(params), "search", query)
    {
      params := Add(params, "search", query);
      q := this;
    }

    method Where(query: string) returns (q: DataQuery)
      modifies this
      ensures q == this && params == Add(old(params), "where", query)
    {
      params := Add(params, "where", query);
      q := this;
    }

    method Conjunction(conjunction: Conjunction) returns (q: DataQuery)
      modifies this
      ensures q == this && params == Add(old(params), "conjunction", conjunction)
    {
      params := Add(params, "conjunction", conjunction);
      q := this;
    }

    /** The column and the direction marker make one `sort` value. */
    method Sort(column: string, direction: SortDirection) returns (q: DataQuery)
      modifies this
      ensures q == this && params == Add(old(params), "sort", column + direction)
    {
      params := Add(params, "sort", column + direction);
      q := this;
    }

    method Page(number: int) returns (q: DataQuery)
      modifies this
      ensures q == this && params == Add(old(params), "page", Itoa(number))
    {
      params := Add(params, "page", Itoa(number));
      q := this;
    }

    method Results<R(==)>(encode: Params -> string, get: string -> Reply<R>, zero: R) returns (o: Outcome<R>)
      ensures o == Classify(get(Address.BuildURL(baseURI, datapath, params, encode)), zero)
    {
      o := DoQuery(baseURI, datapath, params, encode, get, zero);
    }
  }

  /** Bulk export of a table to a downloadable file. */
  class ExportQuery {
    const baseURI: string
    const datapath: string
    var params: Params

    constructor (baseURI: string, datapath: string)
      ensures this.baseURI == baseURI && this.datapath == datapath && params == map[]
    {
      this.baseURI := baseURI;
      this.datapath := datapath;
      params := map[];
    }

    /** All the columns go into one comma-joined `select` value. */
    method Select(columns: seq<string>) returns (q: ExportQuery)
      modifies this
      ensures q == this && params == Add(old(params), "select", Join(columns, ","))
    {
      params := Add(params, "select", Join(columns, ","));
      q := this;
    }

    method Search(query: string) returns (q: ExportQuery)
      modifies this
      ensures q == this && params == Add(old(params), "search", query)
    {
      params := Add(params, "search", query);
      q := this;
    }

    method Where(query: string) returns (q: ExportQuery)
      modifies this
      ensures q == this && params == Add(old(params), "where", query)
    {
      params := Add(params, "where", query);
      q := this;
    }

    method Conjunction(conjunction: Conjunction) returns (q: ExportQuery)
      modifies this
      ensures q == this && params == Add(old(params), "conjunction", conjunction)
    {
      params := Add(params, "conjunction", conjunction);
      q := this;
    }

    /** The column and the direction marker make one `sort` value. */
    method Sort(column: string, direction: SortDirection) returns (q: ExportQuery)
      modifies this
      ensures q == this && params == Add(old(params), "sort", column + direction)
    {
      params := Add(params, "sort", column + direction);
      q := this;
    }

    method Page(number: int) returns (q: ExportQuery)
      modifies this
      ensures q == this && params == Add(old(params), "page", Itoa(number))
    {
      params := Add(params, "page", Itoa(number));
      q := this;
    }

    /**
     * Requests the export and returns the download URL with the request's
     * error. With a ready channel (`ready`), the poller then probes the
     * status URL of the response, whether or not the request failed.
     */
    method FileURL(ready: bool, encode: Params -> string, get: string -> Reply<ExportResponse>,
                   head: (string, nat) -> bool)
      returns (o: Outcome<string>, probes: seq<Probe>, sent: seq<string>)
      ensures var d := DoQuery(baseURI, datapath, params, encode, get, NoExport);
        && (d.Panicked? ==> o.Panicked? && probes == [] && sent == [])
        && (d.Returned? ==> o == Returned(d.response.exportURL, d.err))
        && (d.Returned? && ready ==>
              && 1 <= |probes| <= 4
              && (forall i | 0 <= i < |probes| :: probes[i] == Probe(d.response.headURL, Offset(i)))
              && (forall i | 0 <= i < |probes| - 1 :: !head(d.response.headURL, probes[i].at))
              && (sent == [] ==> |probes| == 4)
              && sent == (if head(d.response.headURL, probes[|probes| - 1].at) then [d.response.exportURL] else []))
        && (!ready ==> probes == [] && sent == [])
    {
      var d := DoQuery(baseURI, datapath, params, encode, get, NoExport);
      probes, sent := [], [];
      if d.Panicked? {
        o := Panicked;
        return;
      }
      if ready {
        var finished;
        probes, sent, finished := Poll(d.response.headURL, d.response.exportURL, head);
      }
      o := Returned(d.response.exportURL, d.err);
    }
  }

  /** A client of the API, identified by its key. */
  class Client {
    const key: string

    /** NewClient. */
    constructor (key: string)
      ensures this.key == key
    {
      this.key := key;
    }

    method Meta() returns (q: MetaQuery)
      ensures fresh(q) && q.baseURI == Address.BuildURI(key, Address.Meta) && q.params == map[]
    {
      q := new MetaQuery(Address.BuildURI(key, Address.Meta));
    }

    method Data(datapath: string) returns (q: DataQuery)
      ensures fresh(q) && q.baseURI == Address.BuildURI(key, Address.Data)
      ensures q.datapath == datapath && q.params == map[]
    {
      q := new DataQuery(Address.BuildURI(key, Address.Data), datapath);
    }

    method Stats(datapath: string, column: string) returns (q: StatsQuery)
      ensures fresh(q) && q.baseURI == Address.BuildURI(key, Address.Stats)
      ensures q.datapath == datapath && q.params == map["select" := [column]]
    {
      var s := new StatsQuery(Address.BuildURI(key, Address.Stats), datapath);
      q := s.SelectColumn(column);
      AddNewKey(map[], "select", column);
    }

    method Export(datapath: string) returns (q: ExportQuery)
      ensures fresh(q) && q.baseURI == Address.BuildURI(key, Address.Export)
      ensures q.datapath == datapath && q.params == map[]
    {
      q := new ExportQuery(Address.BuildURI(key, Address.Export), datapath);
    }
  }

  /** The chained data query of the Client.Data documentation, with a limit added. */
  method VisitorListData(client: Client) returns (q: DataQuery)
    ensures q.baseURI == "https://api.enigma.io/v2/data/" + client.key
    ensures q.datapath == "us.gov.whitehouse.visitor-list"
    ensures q.params == map["select" := ["namefull,appt_made_date"], "sort" := ["namefirst-"], "limit" := ["10"]]
  {
    q := client.Data("us.gov.whitehouse.visitor-list");
    q := q.Select(["namefull", "appt_made_date"]);
    assert Join(["namefull", "appt_made_date"], ",") == "namefull,appt_made_date";
    AddNewKey(map[], "select", "namefull,appt_made_date");
    q := q.Sort("namefirst", Desc);
    assert "namefirst" + Desc == "namefirst-";
    AddNewKey(map["select" := ["namefull,appt_made_date"]], "sort", "namefirst-");
    q := q.Limit(10);
    assert Itoa(10) == "10";
    AddNewKey(map["select" := ["namefull,appt_made_date"], "sort" := ["namefirst-"]], "limit", "10");
  }

  /** The stats query of the Client.Stats documentation. */
  method VisitorListStats(client: Client) returns (q: StatsQuery)
    ensures q.baseURI == "https://api.enigma.io/v2/stats/" + client.key
    ensures q.params == map["select" := ["total_people"], "operation" := ["sum"]]
  {
    q := client.Stats("us.gov.whitehouse.visitor-list", "total_people");
    q := q.Operation(Sum);
    AddNewKey(map["select" := ["total_people"]], "operation", "sum");
  }

  /** The export query of the Client.Export documentation. */
  method VisitorListExport(client: Client) returns (q: ExportQuery)
    ensures q.baseURI == "https://api.enigma.io/v2/export/" + client.key
    ensures q.params == map["select" := ["namefull"], "sort" := ["namefull+"]]
  {
    q := client.Export("us.gov.whitehouse.visitor-list");
    q := q.Select(["namefull"]);
    assert Join(["namefull"], ",") == "namefull";
    AddNewKey(map[], "select", "namefull");
    q := q.Sort("namefull", Asc);
    assert "namefull" + Asc == "namefull+";
    AddNewKey(map["select" := ["namefull"]], "sort", "namefull+");
  }
}
