/** One life cycle of a stock row through the handlers of routes/stocks.js,
    on empty tables holding one product and one shop. */
module Scenario {
  import opened Common
  import Products
  import Stocks

  /** POST /products, POST /stocks, PUT /stocks/increase/1,
      PUT /stocks/decrease/1, DELETE /stocks/1, GET /stocks/1. */
  method StockLifeCycle() returns (created: Result<Stocks.Stock>, increased: Result<Stocks.Stock>,
                                   decreased: Result<Stocks.Stock>, deleted: Result<Stocks.Stock>,
                                   fetched: Result<Stocks.Stock>)
    ensures created == Ok(Stocks.Stock(1, 1, 1, 10, 2))
    ensures increased == Ok(Stocks.Stock(1, 1, 1, 15, 2))
    ensures decreased == Ok(Stocks.Stock(1, 1, 1, 15, 0))
    ensures deleted == Ok(Stocks.Stock(1, 1, 1, 15, 0))
    ensures fetched == Err(NotFound) && StatusOf(fetched.failure) == 404
  {
    var catalog := new Products.ProductTable();
    var productBody := map["plu" := JString("4011"), "name" := JString("Banana")];
    assert productBody.Keys == Products.ProductFields;
    var product := catalog.Create(productBody, false);
    assert product == Ok(Products.Product(1, "4011", "Banana"));

    var table := new Stocks.StockTable(catalog, {1});
    var stockBody := map["product_id" := JInt(1), "shelf_quantity" := JInt(10),
                         "order_quantity" := JInt(2), "shop_id" := JInt(1)];
    assert stockBody.Keys == Stocks.StockFields;
    created := table.Create(stockBody, false);

    assert DigitsValue("1") == 1;
    assert ParseId("1") == Some(1);
    var more := map["shelf_quantity" := JInt(5)];
    assert Stocks.ParseChange(more) == Some(Stocks.Delta(Some(5), None));
    increased := table.Increase("1", more, false);

    var less := map["order_quantity" := JInt(10)];
    assert Stocks.ParseChange(less) == Some(Stocks.Delta(None, Some(10)));
    decreased := table.Decrease("1", less, false);

    deleted := table.Delete("1", false);
    fetched := table.GetByProduct("1", false);
  }
}
