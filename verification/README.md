# techpertsAPI dispatch and shop rules in Dafny

This project models the business rules of the techpertsAPI back end.

- **Delivery dispatch engine.** Deliveries move Pending → Assigned → Delivered and can be Cancelled before they end. Each delivery owns legs ("delivery clusters") and timed driver offers. The delivery service creates, assigns, accepts, declines, cancels, completes and soft-deletes deliveries, each as one all-or-nothing unit.
- **Nearest-driver matcher.** It picks a target location, keeps the drivers that have coordinates, ranks them by distance and rejects the nearest one when it is beyond MaxDriverDistanceKm.
- **Cluster service.** It creates, updates, assigns, tracks, lists and deletes legs. It splits a tech-company leg into a pickup leg and a delivery leg that meet halfway.
- **Reassignment background service.** One iteration retires expired offers and re-offers the delivery, with at most three retries.
- **Shop.** The cart (add, update, remove, clear, checkout), the product catalogue (a filter/sort/page query, add, update with child-collection replacement, delete) and categories (guards and a cascading delete).
- **Notifications and chat.** The notification store (send, per-user paging, counts, mark read, mark all read, delete, fan-out), and the chat hub's message record and conversation history.
- **Pure helpers.** The delivery and category mappers and the page count of PaginatedDTO.

Stores are Dafny classes holding maps and sequences:

- `DispatchData.DispatchDb` holds deliveries, legs and offers.
- `ShopData.ShopDb` holds the shop records.
- `Notifications.NotificationService` holds the notifications.
- `Chat.ChatHub` holds the messages.

Each service is a class whose methods modify its store. Every failure path leaves the store unchanged. The exception is where the C# code has no transaction: `SplitClusterAsync` keeps the pickup leg when the matcher then fails.

Four things are parameters: the clock (`now`), fresh GUIDs (ids with a `requires` that they are unused), distance and midpoint (a `Geometry` record of two total functions), and the driver/company/customer location look-ups (`World`).

## Model

| member | source | states |
|---|---|---|
| Common.TrimStartSpec | Service/Utilities/DeliveryMapper.cs:73-79 | TrimStart leaves a suffix that does not start with whitespace, having dropped only whitespace |
| Common.TrimEndSpec | Service/Utilities/DeliveryMapper.cs:73-79 | TrimEnd leaves a prefix that does not end with whitespace, having dropped only whitespace |
| Common.Trim | Service/Utilities/DeliveryMapper.cs:73-79 | string.Trim leaves a string no longer than its input that neither starts nor ends with whitespace |
| Common.TrimBlank | Service/Utilities/DeliveryMapper.cs:73-79 | a blank string trims to empty; a non-blank string trims to a non-empty one |
| Common.TrimUnpadded | Service/Utilities/DeliveryMapper.cs:73-79 | a string without surrounding whitespace is its own trim |
| Common.GuidIsNotBlank | Service/CategoryService.cs:60-78 | every GUID-shaped string is non-blank, so a GUID check subsumes the blank check before it |
| Common.LowerString | Service/ProductService.cs:84-89 | lower-casing keeps the length and lowers each character |
| Common.Wrap32 | Service/ProductService.cs:102-106 | C# unchecked int arithmetic: the result lies in the 32-bit range and is congruent to the input modulo 2^32, and it is the input itself when the input fits |
| Common.SelectSome | Service/Utilities/DeliveryMapper.cs:128-132 | Select then Where(not null) yields no more values than entries, every value the image of a non-null entry, and the image of every non-null entry |
| Common.SelectSomeConcat | Service/Utilities/DeliveryMapper.cs:128-132 | the selection keeps input order: selecting from a concatenation concatenates the selections |
| Common.SelectSomeUnit | Service/Utilities/DeliveryMapper.cs:128-132 | a non-null entry contributes exactly its image, a null entry nothing |
| Common.SelectSomeLength | Service/Utilities/CategoryMapper.cs:43-48 | the selection has exactly one entry per non-null input |
| Paging.WindowSlice | Service/ProductService.cs:102-106 | Skip(offset).Take(size) is the slice of the listing from max(offset, 0), at most size long |
| Paging.Window | Service/ProductService.cs:102-106 | Skip(offset).Take(size) holds no more than the listing and, for size ≥ 0, no more than size items |
| Paging.TotalPages | Core/DTOs/Product/PaginatedDTO.cs:14 | the ceiling of TotalItems / PageSize: TotalPages · PageSize ≥ TotalItems, (TotalPages − 1) · PageSize < TotalItems when TotalItems > 0, and 0 for no items |
| Paging.PageSlice | Core/DTOs/Product/PaginatedDTO.cs:14 | page p is the run starting at (p − 1) · size, at most size long, empty exactly past TotalPages |
| Paging.PagesCover | Core/DTOs/Product/PaginatedDTO.cs:14 | the pages 1..TotalPages are exactly the non-empty ones |
| Sorting.SortBy | Service/ProductService.cs:92-98 | OrderBy keeps the length and is a permutation of its input |
| Sorting.SortBySorted | Service/ProductService.cs:92-98 | OrderBy's result is in order of its key and is a permutation of its input |
| Sorting.SortByHead | Service/DeliveryService.cs:964-980 | the head of a stable sort is the first least element of the input |
| Sorting.InsertSorted | Service/ProductService.cs:92-98 | inserting into a sorted list keeps it sorted and adds exactly that element |
| Sorting.FlipPreorder | Service/ProductService.cs:92-98 | the descending order of a total preorder is a total preorder |
| DispatchData.PointAt | Service/DeliveryService.cs:924-952 | a pair of known coordinates is a located point with those coordinates |
| DispatchData.OpenOffer | Service/DeliveryService.cs:999-1013 | the offer the engine opens is Pending, active, for the given leg and driver, expiring OfferExpiryTime after now |
| DispatchData.AssignedTo | Service/DeliveryService.cs:987-997 | an automatic assignment sets the delivery's driver and status Assigned and keeps every other field |
| DispatchData.FindActive | Service/DeliveryService.cs:225-243 | the index found is the first active offer for (leg, driver); none means no such offer exists |
| Matching.Target | Service/DeliveryService.cs:924-952 | the choice of the location to match against; it fails only with NoTarget (the precedence is TargetSpec's) |
| Matching.TargetSpec | Service/DeliveryClusterService.cs:500-528 | precedence of the target: override, then company (failing, never falling back, when the company location is unknown), then dropoff |
| Matching.Candidates | Service/DeliveryService.cs:964-978 | at most one candidate per driver, none exactly when no driver has both coordinates, and each candidate a located driver of the list at its own distance Km from the target |
| Matching.CandidatesConcat | Service/DeliveryService.cs:964-978 | the candidates keep the drivers' order: those of a concatenation are the concatenated candidates |
| Matching.CandidatesUnit | Service/DeliveryService.cs:964-978 | a single driver is a candidate, at its distance Km, exactly when it has both coordinates |
| Matching.ByKmPreorder | Service/DeliveryService.cs:964-978 | ordering by distance is a total preorder |
| Matching.FirstMinCandidate | Service/DeliveryService.cs:964-980 | the first least-distance candidate is a located driver at some position k, and every located driver before k is strictly farther |
| Matching.FirstMinLeast | Service/DeliveryService.cs:964-980 | no located driver is nearer than the chosen candidate |
| Matching.NearestSpec | Service/DeliveryService.cs:964-987 | the matcher fails on no drivers, on no located drivers, and when MaxDriverDistanceKm > 0 and the nearest is beyond it; otherwise it returns the first nearest located driver with its distance |
| Matching.Match | Service/DeliveryService.cs:904-985 | the checks before the first write; a success means the delivery and the leg both exist |
| Matching.MatchSpec | Service/DeliveryService.cs:904-985 | the checks fail in order, and a match is a located available driver at its distance from the target |
| Matching.MatchIsNearest | Service/DeliveryClusterService.cs:534-546 | once delivery, cluster and target are found, the match is the matcher's answer for that target |
| DispatchData.DispatchDb.constructor | Service/DeliveryService.cs:60-135 | the empty store keeps every record under its own id |
| ClusterService.NewCluster | Service/DeliveryClusterService.cs:367-371 | a created leg carries the draft's fields under a new id, owned by the given delivery, Pending, with no offers counted and no tracking |
| ClusterService.UpdateEntity | Service/DeliveryClusterService.cs:422-446 | an update overwrites every field from the DTO except id, tracking and UpdatedAt |
| ClusterService.WithDriver | Service/DeliveryClusterService.cs:473-479 | AssignDriverAsync writes exactly AssignedDriverId and AssignmentTime |
| ClusterService.Tracked | Service/DeliveryClusterService.cs:682-693 | tracking is created on first use; a null location or driver name keeps the old value; a default LastUpdated becomes now; Status is always overwritten |
| ClusterService.Unassigned | Service/DeliveryClusterService.cs:708-725 | exactly the legs whose driver id is null or empty |
| ClusterService.UnassignedAfterAssign | Service/DeliveryClusterService.cs:465-487 | assigning a non-empty driver takes exactly that leg off the unassigned list; clearing the driver puts it back |
| ClusterService.OfDelivery | Service/DeliveryClusterService.cs:404-420 | exactly the legs owned by the delivery |
| ClusterService.ClusterService.CreateCluster | Service/DeliveryClusterService.cs:358-381 | a null DTO fails with nothing stored; otherwise exactly one leg is added, under the new id, owned by the given delivery |
| ClusterService.ClusterService.Find | Service/DeliveryClusterService.cs:383-402 | the stored leg under the id, or none |
| ClusterService.ClusterService.UpdateCluster | Service/DeliveryClusterService.cs:422-446 | an unknown id fails and changes nothing; otherwise the DTO overwrites the stored leg and nothing else changes |
| ClusterService.ClusterService.DeleteCluster | Service/DeliveryClusterService.cs:448-463 | an unknown id fails and changes nothing; a known leg is removed and nothing else is |
| ClusterService.ClusterService.AssignDriver | Service/DeliveryClusterService.cs:465-487 | an unknown id fails; otherwise only that leg's driver and assignment time change |
| ClusterService.ClusterService.UpdateClusterTracking | Service/DeliveryClusterService.cs:667-706 | an unknown id fails; otherwise only that leg's tracking and UpdatedAt change, as Tracked says |
| ClusterService.ClusterService.UnassignedClusters | Service/DeliveryClusterService.cs:708-725 | the unassigned legs of the store |
| ClusterService.ClusterService.AutoAssignDriver | Service/DeliveryClusterService.cs:489-555 | on success the nearest driver is given the leg and the delivery, which becomes Assigned, and no offer is opened; any failure changes nothing |
| DeliveryService.Closed | Service/DeliveryService.cs:581-588 | an answered offer has the given status, is inactive and records the response time |
| DeliveryService.CloseOffers | Service/DeliveryService.cs:581-588 | every active offer of the delivery is answered with the status; every other offer is unchanged |
| DeliveryService.ExpiredOfferDeliveries | Service/DeliveryService.cs:1032-1038 | exactly the Pending deliveries with an active offer whose expiry is set and not after now |
| DeliveryService.ClosedOffersNeverExpire | Service/DeliveryService.cs:1032-1038 | once a delivery's offers are closed, it is never listed with expired offers again |
| DeliveryService.Rewrite | Service/DeliveryService.cs:544-579 | the given legs are rewritten and every other leg is kept |
| DeliveryService.CancelledLeg | Service/DeliveryService.cs:544-579 | a cancelled leg is Cancelled with no driver |
| DeliveryService.CompletedLeg | Service/DeliveryService.cs:646-681 | a completed leg is Completed and keeps its driver |
| DeliveryService.DeclinedLeg | Service/DeliveryService.cs:450-478 | a declined leg is Pending, has no driver and one more offer counted |
| DeliveryService.AcceptedLeg | Service/DeliveryService.cs:354-382 | an accepted leg is Assigned to the accepting driver from now on |
| DeliveryService.CancelledLegsUnassigned | Service/DeliveryService.cs:544-579 | after a cancel every leg of the delivery is listed as unassigned |
| DeliveryService.OfferCheck | Service/DeliveryService.cs:208-243 | the checks of accept and decline; on success the index of the first active offer of (leg, driver) |
| DeliveryService.OfferCheckSpec | Service/DeliveryService.cs:208-243 | the checks fail in order (blank ids, unknown leg, another driver's leg), and pass exactly when the leg is the caller's, its delivery exists and an offer to the caller is active |
| DeliveryService.AcceptPlan | Service/DeliveryService.cs:251-283 | the accepting driver must be known and located; a company leg farther than MaxDriverDistanceKm is split, which needs the company's and the customer's locations |
| DeliveryService.SplitCheck | Service/DeliveryClusterService.cs:557-598 | the split checks: a company with a location, a located driver beyond the limit, a located customer |
| DeliveryService.AcceptSplitsLikeSplitCluster | Service/DeliveryService.cs:277-283 | accept splits a company leg exactly when SplitClusterAsync would, at the same handover point |
| DeliveryService.PickupDraft | Service/DeliveryService.cs:286-305 | the pickup leg runs from the company to the midpoint, with half the price, the original sequence number and no driver |
| DeliveryService.DeliveryLegDraft | Service/DeliveryService.cs:308-325 | the delivery leg runs from the midpoint to the customer, with half the price and sequence number s+1, pre-assigned to the driver |
| DeliveryService.SplitLegsFit | Service/DeliveryClusterService.cs:600-629 | the two legs share the price exactly, follow each other and meet at the handover point |
| DeliveryService.AcceptUpdateAgreesWithoutSplit | Service/DeliveryService.cs:354-382 | without a split the final write is the accepted leg, Assigned to the driver |
| DeliveryService.AcceptUpdateUndoesSplit | Service/DeliveryService.cs:354-382 | as written, the final write after a split gives the delivery leg the full price and the replaced leg's sequence number |
| DeliveryService.AcceptUpdateAsWritten | Service/DeliveryService.cs:354-376 | the final write as written keeps the target leg's id, tracking and UpdatedAt, sets the delivery, Assigned, the driver and now, and takes price, sequence number, pickup, dropoff, company and distance from the accepted cluster |
| DeliveryService.AcceptedDeliveryLegKeepsSplit | Service/DeliveryService.cs:308-382 | with the final write corrected, the delivery leg keeps half the price and s+1 and only becomes Assigned |
| DeliveryService.NewDelivery | Service/DeliveryService.cs:73-84 | the new delivery is under the new id with the order id, the customer location as its dropoff, status Assigned (from MapToDelivery) and no retries |
| DeliveryService.NeedsAnySpec | Service/DeliveryService.cs:86-113 | "some leg needs a driver" holds exactly when one of the listed drafts has none |
| DeliveryService.NeedsAnyWitness | Service/DeliveryService.cs:86-113 | one leg without a driver is enough |
| DeliveryService.CreatedLeg | Service/DeliveryService.cs:86-113 | leg k is draft k sent to the customer, given the matched driver when it came without one |
| DeliveryService.CreatedLegs | Service/DeliveryService.cs:86-113 | every created leg sits under its own id and belongs to the delivery |
| DeliveryService.CreatedLegsKeys | Service/DeliveryService.cs:86-113 | exactly the first k new ids are keys of the created legs |
| DeliveryService.CreatedOffers | Service/DeliveryService.cs:108-112 | at most one offer per draft, each Pending and active, under one of the new offer ids |
| DeliveryService.CreatedLegsComplete | Service/DeliveryService.cs:86-113 | every listed leg appears under its new id |
| DeliveryService.CreatedOffersWhenNeeded | Service/DeliveryService.cs:108-112 | the delivery gets an offer exactly when some listed leg came without a driver |
| DeliveryService.DeliveryService.AutoAssignDriver | Service/DeliveryService.cs:904-1030 | on success the nearest driver gets the leg and the delivery (Assigned) and one Pending active offer expiring OfferExpiryTime from now; a failure changes nothing |
| DeliveryService.DeliveryService.AssignDriverToCluster | Service/DeliveryService.cs:137-204 | the leg gets the driver, the delivery gets the driver and status Assigned, and exactly one Pending active offer is added |
| DeliveryService.DeliveryService.CloseActiveOffers | Service/DeliveryService.cs:581-588 | every active offer of the delivery is answered with the status; nothing else changes |
| DeliveryService.DeliveryService.RewriteLegs | Service/DeliveryService.cs:544-579 | every leg of the delivery is rewritten; nothing else changes |
| DeliveryService.DeliveryService.RemoveLegs | Service/DeliveryService.cs:806-818 | every leg of the delivery is removed; nothing else changes |
| DeliveryService.DeliveryService.Cancel | Service/DeliveryService.cs:516-609 | refused on Delivered or Cancelled; otherwise Cancelled, every leg Cancelled without a driver, every active offer Expired and inactive |
| DeliveryService.DeliveryService.Complete | Service/DeliveryService.cs:611-711 | only the delivery's own driver, and only before it ends; then Delivered now, legs Completed keeping their driver, active offers Accepted and inactive |
| DeliveryService.DeliveryService.DeleteDelivery | Service/DeliveryService.cs:778-841 | refused on Delivered; otherwise Cancelled, legs removed, active offers Expired and inactive |
| DeliveryService.DeliveryService.CreateSplitLegs | Service/DeliveryClusterService.cs:600-629 | creates the pickup leg, gives it to the driver nearest the company with an offer, then creates the delivery leg for the given driver |
| DeliveryService.DeliveryService.AcceptSplit | Service/DeliveryService.cs:286-352 | the split branch of accept: both legs, the offer re-pointed, the original leg deleted, the delivery Assigned, and the delivery leg given the corrected final write (see Findings); a failure restores the state |
| DeliveryService.DeliveryService.FinishSplit | Service/DeliveryService.cs:330-352 | the offer moves to the delivery leg, the original leg goes, the delivery becomes Assigned and the delivery leg Assigned to the driver with its split price and sequence kept (the corrected final write, see Findings) |
| DeliveryService.DeliveryService.Accept | Service/DeliveryService.cs:206-403 | accept fails and changes nothing unless the offer check passes; then the offer is Accepted and inactive, the delivery Assigned, and the leg either kept for the driver or split, the split path ending with the corrected final write (see Findings) |
| DeliveryService.DeliveryService.Decline | Service/DeliveryService.cs:405-514 | the offer Declined and inactive, the leg Pending without a driver and with one more offer, the delivery Pending without a driver; the retry count rises, and the leg is re-offered, only below MaxRetries |
| DeliveryService.DeliveryService.Reoffer | Service/DeliveryService.cs:488-496 | the leg is offered to the driver nearest the delivery's dropoff; no dropoff coordinates fails |
| DeliveryService.DeliveryService.WriteDecline | Service/DeliveryService.cs:444-482 | the writes every answered decline makes, with the retry count raised exactly when the delivery will be re-offered |
| DeliveryService.DeliveryService.AddListedLeg | Service/DeliveryService.cs:86-113 | one step of the create loop: the leg with the customer as dropoff and, when it came without a driver, the nearest driver with an offer |
| DeliveryService.DeliveryService.CreateStep | Service/DeliveryService.cs:86-113 | step k fails exactly when draft k needs a driver and none is found near the customer |
| DeliveryService.DeliveryService.Create | Service/DeliveryService.cs:60-135 | a null request, blank order id or negative customer coordinate is refused with nothing stored; otherwise the delivery and every listed leg are stored and legs without a driver get one with an offer; a matcher failure stores nothing |
| DeliveryService.DeliveryService.CreateLegs | Service/DeliveryService.cs:86-113 | the loop stops at the first leg that needs a driver when none is found |
| DeliveryService.DeliveryService.SplitCluster | Service/DeliveryClusterService.cs:557-634 | refuses a leg without a company, unlocated company or driver, a driver within range and an unlocated customer; otherwise creates both legs and deletes the original |
| DeliveryMapper.MapToDeliveryDTO | Service/Utilities/DeliveryMapper.cs:10-29 | null maps to null; otherwise the DTO carries the entity's fields |
| DeliveryMapper.MapToDelivery | Service/Utilities/DeliveryMapper.cs:31-49 | null maps to null; otherwise a new delivery, always Assigned, with the DTO's fields |
| DeliveryMapper.CreateThenView | Service/Utilities/DeliveryMapper.cs:10-49 | mapping a created delivery back gives the create DTO's fields unchanged |
| DeliveryMapper.ParseStatus | Service/Utilities/DeliveryMapper.cs:73-79 | Enum.TryParse on member names: case-sensitive, surrounding whitespace ignored |
| DeliveryMapper.ParseStatusName | Service/Utilities/DeliveryMapper.cs:73-79 | parsing inverts ToString |
| DeliveryMapper.ParseStatusNotBlank | Service/Utilities/DeliveryMapper.cs:73-79 | a blank string never parses |
| DeliveryMapper.UpdateDelivery | Service/Utilities/DeliveryMapper.cs:51-89 | a null delivery or DTO changes nothing; identity, location and retry count are kept |
| DeliveryMapper.UpdateStrings | Service/Utilities/DeliveryMapper.cs:55-65 | each string field is overwritten exactly when the DTO's value is non-blank |
| DeliveryMapper.UpdateValues | Service/Utilities/DeliveryMapper.cs:67-85 | dates and fee are overwritten exactly when present; the status changes only to a non-blank name that parses, and always to one that does |
| DeliveryMapper.UpdateIdempotent | Service/Utilities/DeliveryMapper.cs:51-89 | applying an update twice is applying it once |
| DeliveryMapper.EmptyUpdateKeeps | Service/Utilities/DeliveryMapper.cs:51-89 | an update with only blank strings and absent values changes nothing |
| DeliveryMapper.MapToDeliveryDTOList | Service/Utilities/DeliveryMapper.cs:128-132 | null gives the empty list; otherwise one DTO per non-null entity, each the DTO of some entity of the list, and no null entry |
| DeliveryMapper.DeliveryDTOListOrder | Service/Utilities/DeliveryMapper.cs:128-132 | the list keeps input order: mapping a concatenation concatenates the mapped lists, an entity becomes its DTO and a null entry is dropped |
| Reassignment.FirstActive | Service/DeliveryOfferReassignmentService.cs:48 | the index of the first active offer, or none when no offer is active |
| Reassignment.DeactivateCount | Service/DeliveryOfferReassignmentService.cs:57 | turning one active offer off removes exactly one from the active count |
| Reassignment.Step | Service/DeliveryOfferReassignmentService.cs:45-99 | a delivery that is not due is left alone with no event; a due one keeps its id, status and number of offers |
| Reassignment.StepSpec | Service/DeliveryOfferReassignmentService.cs:48-92 | a due delivery always loses its expired offer; then exactly one of: retries exhausted (alert), no driver (alert), or reassignment to the first driver with the count raised by one |
| Reassignment.StepRetryBound | Service/DeliveryOfferReassignmentService.cs:59-92 | the retry count never falls, rises by at most one, never past MaxRetries, and rises exactly on reassignment |
| Reassignment.Pass | Service/DeliveryOfferReassignmentService.cs:41-101 | one iteration: a failed query changes nothing; otherwise each delivery goes through Step in order, at its own clock reading and with its own answer to the available-driver query |
| Reassignment.Passes | Service/DeliveryOfferReassignmentService.cs:30-109 | the loop as repeated iterations, each with per-delivery readings and each starting from the previous one's deliveries; every delivery comes back from every iteration |
| Reassignment.PassesRetryBound | Service/DeliveryOfferReassignmentService.cs:20-109 | however many iterations run, a retry count starting at or below MaxRetries stays between its start and MaxRetries |
| ShopData.ItemsOf | Service/CartService.cs:112-129 | exactly the lines of the cart |
| ShopData.OtherCarts | Service/CartService.cs:260-264 | exactly the lines of every other cart |
| ShopData.Without | Service/CategoryService.cs:255-259 | exactly the lines that reference none of the products |
| ShopData.WithoutTwice | Service/CategoryService.cs:255-259 | removing one product's lines after a set's removes the lines of the larger set |
| ShopData.FindItem | Service/CartService.cs:129 | the index of the cart's line for the product, or none when there is no such line |
| ShopData.OtherCartsOneLine | Service/CartService.cs:260-264 | clearing a cart keeps one line per product per cart |
| ShopData.WithoutOneLine | Service/CategoryService.cs:255-259 | the cascade keeps one line per product per cart |
| ShopData.ShopDb.constructor | Service/CartService.cs:78-155 | the empty shop satisfies the store invariant |
| CartService.SetQuantitySpec | Service/CartService.cs:137-139 | setting the found line's quantity changes that product's quantity in that cart and no other |
| CartService.AddLine | Service/CartService.cs:129-154 | a failure is OutOfStock and only for a product already in the cart; a success adds a line exactly when the product was not in the cart |
| CartService.AddLineSpec | Service/CartService.cs:112-154 | add succeeds exactly when the cart's quantity plus the request stays within stock; then that quantity rises by exactly the request, every other quantity is kept and the cart keeps one line per product |
| CartService.AddLineAsWritten | Service/CartService.cs:129-154 | as written, the existing line's new quantity is the int-wrapped sum, which is both checked against the stock and stored; the other outcomes are those of AddLine |
| CartService.AddLineAsWrittenAgrees | Service/CartService.cs:133-137 | while the cart's quantity plus the request fits in an int, the as-written update is the model's |
| CartService.AddLineWraps | Service/CartService.cs:133-137 | a line of 2147483000 units of a product stocked at int.MaxValue takes 1000 more as written, and a quantity of −2147483296 is stored, where the model refuses with OutOfStock |
| CartService.RemoveAt | Service/CartService.cs:233-234 | the lines without the one at the index |
| CartService.RemoveLineSpec | Service/CartService.cs:229-235 | removing the product's one line leaves the cart without it and keeps one line per product |
| CartService.ItemsOfOtherCarts | Service/CartService.cs:260-264 | removing one cart's lines keeps every other cart's lines and leaves none for that cart |
| CartService.ClearedCartIsEmpty | Service/CartService.cs:257-265 | a cleared cart has no lines and every other cart keeps its lines |
| CartService.DeductSpec | Service/CartService.cs:410 | taking stock keeps every product but its stock, which falls by exactly what the lines order |
| CartService.DeductKeepsKeys | Service/CartService.cs:410-412 | taking stock keeps every product under its own id |
| CartService.OrderedDistinct | Service/CartService.cs:395-413 | with one line per product, the amount ordered of a product is its line's quantity |
| CartService.ItemsOfDistinct | Service/CartService.cs:395-413 | one cart's lines order each product at most once |
| CartService.CheckoutKeepsStock | Service/CartService.cs:347-413 | checkout keeps every stock at zero or above |
| CartService.Unorderable | Service/CartService.cs:347-366 | exactly the lines with no product, a quantity of zero or less, or more than the stock; none exactly when every line can be ordered |
| CartService.UnorderableConcat | Service/CartService.cs:347-366 | rejection keeps cart order: the rejected lines of a concatenation are the concatenated rejected lines |
| CartService.UnorderableUnit | Service/CartService.cs:350-364 | a single line is rejected exactly when it cannot be ordered |
| CartService.PlacedOrder | Service/CartService.cs:379-408 | the order is Pending, for the customer and cart, with one item per line carrying its product, quantity and the product's price, and the sum of the item totals as its total |
| CartService.ItemFor | Service/CartService.cs:397-405 | an order item has the product's price as unit price and quantity × price as total |
| CartService.OrderItems | Service/CartService.cs:395-408 | one order item per cart line, in cart order |
| CartService.DeductNext | Service/CartService.cs:410-412 | one more line taken lowers only its product's stock, and leaves its price as it was at the start |
| CartService.CartService.AddItem | Service/CartService.cs:78-155 | the argument checks, customer, product and stock checks fail with nothing changed; otherwise the customer gets a cart if needed and the lines change as AddLine says |
| CartService.CartService.UpdateItemQuantity | Service/CartService.cs:158-204 | after the checks the line's quantity becomes exactly the requested one and nothing else changes |
| CartService.CartService.RemoveItem | Service/CartService.cs:207-238 | after the checks exactly the cart's line for the product goes |
| CartService.CartService.RemoveCartLines | Service/CartService.cs:260-264 | every line of the cart goes; the other lines stay in order |
| CartService.CartService.ClearCart | Service/CartService.cs:241-268 | bad id refused, missing cart not found, empty cart reported; otherwise the cart is emptied and other carts kept |
| CartService.CartService.RejectedLines | Service/CartService.cs:347-366 | the validation loop returns Unorderable of the lines: exactly the lines with no product, a quantity of zero or less, or more than the stock, in cart order, and none exactly when every line can be ordered |
| CartService.CartService.TakeLines | Service/CartService.cs:395-413 | one order item per line, the running total as their sum, and the stock taken |
| CartService.CartService.Checkout | Service/CartService.cs:378-420 | stores the order, takes the stock and empties the cart |
| CartService.CartService.PlaceOrder | Service/CartService.cs:270-438 | refused with no change on bad ids, a missing or empty cart, a missing customer or any rejected line; otherwise one Pending order with an item per line and their sum as total, stock lowered by each line, cart cleared |
| ProductService.Filtered | Service/ProductService.cs:78-89 | exactly the products matching status, category, subcategory and case-insensitive name substring, each as often as in the input |
| ProductService.FilteredConcat | Service/ProductService.cs:78-89 | the filter keeps input order: filtering a concatenation concatenates the filtered parts |
| ProductService.FilteredUnit | Service/ProductService.cs:78-89 | a single product is kept exactly when it matches every filter |
| ProductService.OrderForPreorder | Service/ProductService.cs:92-98 | every sort the query can ask for is a total preorder |
| ProductService.GetAll | Service/ProductService.cs:33-106 | the query fails, with Invalid, exactly on pageNumber < 1, pageSize outside 1..100, or a non-blank category or subcategory id that is not a GUID; otherwise the page echoes page number and size, counts every matching product and holds at most pageSize items |
| ProductService.GetAllAsWritten | Service/ProductService.cs:33-106 | the same refusals and the same page fields with the int-wrapped offset |
| ProductService.GetAllRefuses | Service/ProductService.cs:33-71 | the query fails exactly on pageNumber < 1, pageSize outside 1..100, or a non-blank category or subcategory id that is not a GUID, and then with Invalid |
| ProductService.GetAllItems | Service/ProductService.cs:78-106 | TotalItems counts every match before paging; the items match every filter, are in the query's order and number at most pageSize |
| ProductService.GetAllPage | Service/ProductService.cs:100-106 | the items are the run of the listing from (pageNumber − 1) · pageSize, empty exactly past TotalPages |
| ProductService.PagedSlice | Service/ProductService.cs:102-106 | the same for any listing |
| ProductService.GetAllAsWrittenAgrees | Service/ProductService.cs:102-106 | the query with the int-wrapped offset agrees with the model while the offset fits in an int |
| ProductService.PageOffsetWraps | Service/ProductService.cs:102-106 | page 21474838 of size 100 wraps to a negative offset and returns the first page of a catalogue that it is past |
| ProductService.MapToProduct | Service/ProductService.cs:317 | a new product carries the DTO's fields under the new id |
| ProductService.ProductService.Add | Service/ProductService.cs:253-348 | a valid DTO becomes one new product under a fresh id; a null DTO, blank name, price ≤ 0 or negative stock is refused with nothing stored |
| ProductService.ProductService.RefillSpecifications | Service/ProductService.cs:415-431 | the new specifications are exactly the DTO's, in order, for this product |
| ProductService.ProductService.RefillWarranties | Service/ProductService.cs:416-445 | the new warranties are exactly the DTO's, in order, for this product |
| ProductService.ProductService.Update | Service/ProductService.cs:350-456 | after the checks the product carries the DTO, its old specifications and warranties replaced, keeps its id, and no other product changes |
| ProductService.ProductService.Delete | Service/ProductService.cs:458-516 | blank or non-GUID refused, unknown not found, with nothing removed; a known product is removed and nothing else changes |
| CategoryMapper.MapToCategoryDTO | Service/Utilities/CategoryMapper.cs:8-19 | null maps to null; otherwise Id, Name, Image and Description are copied |
| CategoryMapper.MapToCategory | Service/Utilities/CategoryMapper.cs:21-31 | null maps to null; otherwise a new category with the DTO's name, description and image |
| CategoryMapper.MapToCategoryUpdate | Service/Utilities/CategoryMapper.cs:33-41 | a null argument gives null; otherwise exactly name, description and image are overwritten and the id is kept |
| CategoryMapper.CreateThenView | Service/Utilities/CategoryMapper.cs:8-31 | creating and reading back gives the DTO's fields under the new id |
| CategoryMapper.UpdateThenView | Service/Utilities/CategoryMapper.cs:33-41 | an update is idempotent and reads back as the DTO's fields under the entity's own id |
| CategoryMapper.MapToCategoryDTOList | Service/Utilities/CategoryMapper.cs:43-48 | null gives the empty list; otherwise one DTO per non-null entity, each the DTO of some entity of the list, no null entry |
| CategoryMapper.CategoryDTOListOrder | Service/Utilities/CategoryMapper.cs:43-48 | the list keeps input order: mapping a concatenation concatenates the mapped lists, a category becomes its DTO and a null entry is dropped |
| CategoryService.ProductsOf | Service/CategoryService.cs:251-264 | exactly the products of the category |
| CategoryService.CategoryService.GetCategoryById | Service/CategoryService.cs:58-114 | a blank or non-GUID id is refused, an unknown one not found, a known one gives its DTO |
| CategoryService.CategoryService.CreateCategory | Service/CategoryService.cs:116-161 | a null DTO or blank name is refused with nothing stored; otherwise exactly one category is added under a fresh id |
| CategoryService.CategoryService.UpdateCategory | Service/CategoryService.cs:163-239 | needs a DTO with a GUID id and a name; an unknown id is not found; otherwise only that category's name, description and image change |
| CategoryService.CategoryService.RemoveLinesOf | Service/CategoryService.cs:255-259 | every cart line of the product goes, the others stay in order |
| CategoryService.CategoryService.RemoveProducts | Service/CategoryService.cs:255-264 | the cart lines of the doomed products go, then the products |
| CategoryService.CategoryService.DeleteCategory | Service/CategoryService.cs:241-278 | a bad or unknown id removes nothing; otherwise the lines of its products, the products and the category go, and every other record stays |
| Notifications.ReceivedMembers | Service/NotificationService.cs:112-120 | a user's filter keeps exactly that user's notifications (the unread ones, when asked) |
| Notifications.Received | Service/NotificationService.cs:112-114 | the filter keeps no more notifications than the table holds, each one passing the filter |
| Notifications.UserListing | Service/NotificationService.cs:112-117 | a user's listing is newest first and a permutation of that user's notifications |
| Notifications.UnreadWithinTotal | Service/NotificationService.cs:338-345 | a user's unread notifications are no more than their notifications |
| Notifications.ReceivedCountsIndices | Service/NotificationService.cs:338-345 | a filter keeps exactly one notification per table position it accepts: the count is the number of such positions |
| Notifications.GetNotificationCount | Service/NotificationService.cs:324-363 | a blank user id is refused (Invalid); otherwise the total is the number of table positions addressed to the user, the unread count the number of those not read, and unread ≤ total |
| Notifications.NewestFirstPreorder | Service/NotificationService.cs:112-120 | newest-first is a total preorder |
| Notifications.GetUserNotifications | Service/NotificationService.cs:95-140 | a blank user id is refused with Invalid |
| Notifications.UserPageContents | Service/NotificationService.cs:112-120 | a page holds only the user's stored notifications, newest first, at most pageSize of them |
| Notifications.UserPageSlice | Service/NotificationService.cs:112-120 | with page and size from 1 and an offset within int range, the page is the run from (pageNumber − 1) · pageSize, empty exactly past TotalPages |
| Notifications.UserPageFromStart | Service/NotificationService.cs:112-120 | page 0, a negative page or a wrapped negative offset gives the first pageSize notifications |
| Notifications.IndexOf | Service/NotificationService.cs:203 | the position of the notification with the id, or none when no notification has it |
| Notifications.SentCounts | Service/NotificationService.cs:40-71 | storing an unread notification adds one to its receiver's total and unread counts and nothing else |
| Notifications.MarkReadCounts | Service/NotificationService.cs:203-216 | marking read keeps every total and takes one off the receiver's unread count if it was unread |
| Notifications.DeleteCounts | Service/NotificationService.cs:292-304 | deleting removes exactly that notification, and only its receiver's counts drop |
| Notifications.AllRead | Service/NotificationService.cs:250-258 | the table keeps its length and each entry is read exactly when it belonged to the user |
| Notifications.AllReadOwn | Service/NotificationService.cs:250-258 | after mark-all the user has nothing unread and as many notifications as before |
| Notifications.AllReadOthers | Service/NotificationService.cs:250-258 | mark-all leaves other users' notifications untouched |
| Notifications.Fanout | Service/NotificationService.cs:409-438 | one notification per listed user id |
| Notifications.FanoutAt | Service/NotificationService.cs:409-438 | the k-th notification goes, unread, to the k-th listed user under the k-th new id |
| Notifications.FanoutReceived | Service/NotificationService.cs:409-438 | a user gets one unread notification per time their id is listed |
| Notifications.FanoutCounts | Service/NotificationService.cs:409-438 | a fan-out raises each user's total and unread counts by the times their id is listed |
| Notifications.BuildFanout | Service/NotificationService.cs:409-430 | the building loop produces the fan-out |
| Notifications.AppendFresh | Service/NotificationService.cs:432-438 | appending notifications with fresh ids keeps ids distinct |
| Notifications.NotificationService.Send | Service/NotificationService.cs:31-93 | a blank receiver or message is refused with nothing stored; otherwise one unread notification is appended |
| Notifications.NotificationService.MarkAsRead | Service/NotificationService.cs:189-234 | a blank id is refused, an unknown one not found; otherwise exactly that notification becomes read |
| Notifications.NotificationService.MarkAllAsRead | Service/NotificationService.cs:236-276 | a blank id is refused; otherwise the table becomes AllRead |
| Notifications.NotificationService.Delete | Service/NotificationService.cs:278-322 | a blank id is refused, an unknown one not found; otherwise exactly that notification is removed |
| Notifications.NotificationService.SendToMultiple | Service/NotificationService.cs:400-462 | an empty list is refused with nothing stored; otherwise exactly the fan-out is appended |
| Chat.ConversationMembers | Hubs/ChatHub.cs:56-58 | the conversation holds exactly the messages between the two users, in either direction |
| Chat.ConversationAppend | Hubs/ChatHub.cs:29-40 | a stored message joins exactly the conversations it belongs to, at their end |
| Chat.OrdersPreorder | Hubs/ChatHub.cs:61-64 | both SentAt orders are total preorders |
| Chat.GetMessageHistory | Hubs/ChatHub.cs:56-64 | the history is in ascending SentAt order and holds at most take messages, none for take ≤ 0 |
| Chat.HistoryContents | Hubs/ChatHub.cs:56-64 | the history holds only the conversation's messages, in ascending SentAt order, and min(take, length) of them (none for take ≤ 0) |
| Chat.HistoryMostRecent | Hubs/ChatHub.cs:61-63 | the history is drawn from the conversation, and every message left out was sent no later than every message kept |
| Chat.PrefixMostRecent | Hubs/ChatHub.cs:62-63 | a prefix of a newest-first listing is never older than what it leaves out |
| Chat.ChatHub.SendPrivateMessage | Hubs/ChatHub.cs:23-50 | the record names the caller as sender with their role, the receiver, the text and now; it is stored only when the save succeeds, and the receiver is pushed the message either way |
| Chat.SentJoinsConversation | Hubs/ChatHub.cs:29-58 | a sent message joins the conversation of its two users, seen from either side, and no other |

## Left out

- Storage, EF Core loading, `SaveChangesAsync` and `TransactionScope` are not modelled as such; each operation is one atomic method whose failure leaves its store unchanged.
- ClusterService.ClusterService.UpdateClusterTracking: the source (Service/DeliveryClusterService.cs:667-706) updates the tracked entity but never calls `SaveChangesAsync`, so the change persists only if a later save on the same context flushes it; the model commits it at once.
- DeliveryService.DeliveryService.Accept: on the split path the model makes the corrected final write (the delivery leg keeps half the price and sequence s+1 and becomes Assigned), not the write the source makes at Service/DeliveryService.cs:354-376, which is built from the original cluster; the as-written write is DeliveryService.AcceptUpdateAsWritten and the difference is the second row of Findings. DeliveryService.DeliveryService.AcceptSplit and DeliveryService.DeliveryService.FinishSplit follow Accept.
- DeliveryService.DeliveryService: the notifications the service stores and pushes after a successful write are not modelled; the model's notification store (Notifications) is not touched by these methods. They are: AssignDriverToCluster to the driver (Service/DeliveryService.cs:188-193); Accept to the driver after a split (341-346) and again on every accept (387-392); Decline to the declining driver (498-503); Cancel to the delivery's driver, else its customer, else "admin" (593-598); Complete to the delivery's customer, else "admin" (695-700); AutoAssignDriver to the nearest driver's user id, else the driver id (1015-1021), which is the only use of `Driver.userId`. Each is a call into NotificationService after the delivery writes are saved, and none changes the delivery, leg or offer state.
- `Guid.NewGuid()` and `DateTime.UtcNow` are parameters: fresh ids come with a precondition that they are unused.
- `ILocationService.CalculateDistance` and `GetMidpoint` are a `Geometry` parameter of two arbitrary total functions; distances are reals, not doubles.
- Driver, company and customer look-ups (`IDeliveryPersonService`, profile and company repositories) are a `World` parameter.
- Prices and fees are reals standing for C# `decimal`; rounding of decimal arithmetic is not modelled.
- CartService.CartService.AddItem: the 1000 cap (Service/CartService.cs:98) applies to one request only, so a line already within 1000 of int.MaxValue makes `existingItem.Quantity + itemDto.Quantity` (line 133) wrap to a negative number; the stock check at line 134 then passes and the negative quantity is stored (lines 136-137). The model adds without wrapping and refuses such a request with OutOfStock; the as-written update is CartService.AddLineAsWritten and the difference is the third row of Findings. Otherwise cart quantities and stock are unbounded integers.
- Common.LowerString: lowers ASCII letters only, not the full invariant culture.
- Common.ContainsIgnoreCase: `StringComparison.OrdinalIgnoreCase` also folds non-ASCII letters ("Écran" contains "écran"); the model folds ASCII letters only, so ProductService.Filtered keeps fewer products for a non-ASCII name search.
- Common.SameIgnoreCase: folds ASCII letters only, for the same reason.
- Common.GuidShape: `Guid.TryParse` also accepts the "X" format `{0x…,0x…,0x…,{0x…,…}}`; the model accepts the N, D, B and P formats only, so every GUID guard (Common.IsGuid, Common.GuidId, and the category and subcategory checks of ProductService.GetAll) refuses X-format ids the source accepts.
- Common.IsGuid: inherits the missing "X" format of Common.GuidShape.
- DeliveryMapper.ParseStatus: `Enum.TryParse` also accepts numeric strings ("1") and comma-separated lists of names; the enum's numeric values are not part of this model, so only single member names parse.
- DeliveryMapper.UpdateValues: a numeric or comma-list status string leaves the status unchanged in the model, where the source would set it; this follows from DeliveryMapper.ParseStatus.
- DeliveryMapper.UpdateDelivery: the same gap in status parsing as DeliveryMapper.UpdateValues.
- Sorting by name or id compares strings in ordinal (code-unit) order. `GetAllWithIncludesAsync` loads the products into memory (Service/ProductService.cs:74), so `OrderBy(p => p.Name)` uses the culture-sensitive `Comparer<string>.Default`; culture-aware collation is not modelled.
- ProductService.MapToProduct: the product mapper is not part of this model; the new product is assumed to carry every field of the DTO, its status included, and the DTO's specifications and warranties, in order, under the new id.
- ClusterService.NewCluster: `DeliveryClusterMapper.ToEntity` is not part of this model; a created leg is assumed to be Pending, with no offers counted, no assignment time and no tracking.
- ClusterService.UpdateEntity: the cluster mapper is not part of this model; its effect is assumed to be the overwrite of every DTO field but id, tracking and UpdatedAt.
- `DeliveryMapper.ToEntity` and `ToReadDTO` do not exist in the delivery mapper; creation is modelled as MapToDelivery plus the order id and the customer location.
- `GetByStatusAsync` and `AssignDeliveryToPersonAsync` of the reassignment service do not exist on the delivery service interface; they are the `found` parameter and a `Reassigned` event naming the driver; the job record itself holds no driver.
- Reassignment.Pass: the exception handler wrapping the whole pass, `Task.Delay` and the cancellation token are scheduling plumbing; the loop is modelled as repeated passes. An exception thrown midway (by the driver query, the assignment or a notification) ends the pass early; the model always finishes it.
- Reassignment.Passes: each iteration opens a new scope and queries the Pending deliveries again (Service/DeliveryOfferReassignmentService.cs:34, 41); the loop itself never saves the offer it deactivates (line 57) or the raised retry count (line 92). Whether those writes reach the next query depends on GetByStatusAsync and AssignDeliveryToPersonAsync, which are not part of this model. Passes assumes they persist and that the same deliveries come back, and Reassignment.PassesRetryBound holds under that assumption; if the retry count were not persisted, it would never reach MaxRetries and the delivery would be re-offered on every pass.
- Admin alerts and driver notifications of the reassignment service are events in a list, not notifications in the store.
- The SignalR pushes of the notification service, and `Clients.User(...).SendAsync` of the chat hub, are not modelled beyond the returned `Push` value.
- `Context.UserIdentifier` and the role claim are parameters (a string and an optional string).
- NotificationType is an integer code.
- `GetNotificationByIdAsync`, `SendNotificationToRoleAsync` and the factory send methods are outside the modelled core.
- Notifications.NotificationService.SendToMultiple: a null id list is modelled as the empty list.
- Notifications.GetNotificationCount: the count fields of the C# DTO are ints; the model counts with natural numbers.
- `ProductService.GetProductsByCategoryAsync` and `GetByIdAsync` are read-only look-ups outside the modelled core.
- Carts are keyed by their customer, since every cart operation looks the cart up by CustomerId and takes the first match.
- CartService.CartService.PlaceOrder: the validation messages are collapsed into one `OutOfStock` error; which lines failed is what RejectedLines returns.
- PaginatedDTO's `Items` default (an empty list) is a constructor default with no rule to prove.
- The race between two drivers accepting the same leg and every `Task.WhenAll` are concurrency, not sequential logic.
- The unique (leg, driver) offer index of the database schema is not assumed.

## Findings

| source | as written | input that shows it | evidently intended | confidence | as-written member | corrected member |
|---|---|---|---|---|---|---|
| Service/ProductService.cs:102-106 | the offset `(pageNumber - 1) * pageSize` is computed in int arithmetic, so it wraps, and Skip of a negative count skips nothing | pageNumber 21474838, pageSize 100: the offset 2147483700 wraps to −2147483596 and the first page comes back instead of an empty page | the page past the end is empty; the offset is computed without overflow | not executed | ProductService.PageOffsetWraps | ProductService.GetAllPage |
| Service/DeliveryService.cs:354-382 | after a split, the final UpdateClusterAsync DTO is built from the original cluster (its Price and SequenceOrder at 361 and 368) and written to the new delivery leg | a company leg with price 100 and sequence 1, split for a driver beyond MaxDriverDistanceKm: the delivery leg ends with price 100 and sequence 1 | the delivery leg keeps half the price and sequence s+1 and only becomes Assigned to the accepting driver | not executed; low, because the cluster mapper's UpdateEntity is not part of this model | DeliveryService.AcceptUpdateUndoesSplit | DeliveryService.AcceptedDeliveryLegKeepsSplit |
| Service/CartService.cs:133-137 | the new line quantity `existingItem.Quantity + itemDto.Quantity` is an int sum; the 1000 cap holds per request only, so the sum can wrap, and the wrapped value is checked against the stock and stored | stock 2147483647, a cart line of 2147483000, a request for 1000: the sum wraps to −2147483296, passes the stock check and is stored | the request is refused because the cart would hold more than the stock | not executed | CartService.AddLineWraps | CartService.AddLineSpec |
